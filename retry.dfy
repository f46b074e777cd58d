/**
 * What the page does when one of its three loads fails: retry a
 * "connection slots are reserved" failure after a delay, at most three
 * times, or give up with an error message.
 *
 * The three loaders disagree: `fetchFilteredComponents` waits (r+1)*2
 * seconds and shows no notice while waiting, `loadInitialData` and
 * `fetchMasterData` wait 2^r*2 seconds and show a notice; and
 * `fetchMasterData` never retries a failure the server reported, only one
 * that was thrown.
 */
module RetryPolicy {

  import opened Wrappers
  import opened JsValues

  datatype Loader = MasterData | InitialData | FilteredComponents

  /**
   * A failed load: the response said `success: false` with a `message`, or
   * the call threw. For a thrown value, `message` is what the loader reads
   * of it: `loadInitialData` and `fetchFilteredComponents` read
   * `error.message`, which is `Null` for anything but an `Error` (a thrown
   * string included); `fetchMasterData` reads the message of an `Error` or a
   * thrown string itself, and `Null` stands for anything else.
   */
  datatype Failure = Reported(message: Value) | Thrown(message: Value)

  /** Why a load was given up: the pool stayed exhausted for `attempts` attempts, or another failure. */
  datatype Reason = PoolExhausted(attempts: nat) | Failed(failure: Failure)

  /** Retry after `seconds`, showing `notice` meanwhile, or stop and show the error for `reason`. */
  datatype Decision = RetryAfter(seconds: nat, notice: Option<string>) | GiveUp(reason: Reason)

  const MaxRetries: nat := 3
  const TransientMarker: string := "connection slots are reserved"

  function Pow2(n: nat): (r: nat)
    ensures r >= 1
  {
    if n == 0 then 1 else 2 * Pow2(n - 1)
  }

  /** The wait before retry number `retryCount + 1`, in seconds. */
  function Delay(loader: Loader, retryCount: nat): (seconds: nat)
    ensures seconds >= 2 && seconds % 2 == 0
  {
    match loader
    case FilteredComponents => (retryCount + 1) * 2
    case _ => Pow2(retryCount) * 2
  }

  /** The text `fetchMasterData` makes of a thrown error. */
  function MasterErrorText(message: Value): string
  {
    if message.Str? then message.s else "Unknown error occurred"
  }

  /**
   * A failure the loader treats as an exhausted connection pool. The two
   * other loaders test `message && message.includes(...)`, which only a
   * string message can pass: any other truthy message has no `includes`.
   */
  predicate Transient(loader: Loader, failure: Failure)
    ensures loader == MasterData && failure.Reported? ==> !Transient(loader, failure)
    ensures Transient(loader, failure) ==>
      Contains(if loader == MasterData then MasterErrorText(failure.message) else ToText(failure.message), TransientMarker)
  {
    match (loader, failure)
    case (MasterData, Reported(_)) => false
    case (MasterData, Thrown(m)) => Contains(MasterErrorText(m), TransientMarker)
    case (_, _) => failure.message.Str? && Contains(failure.message.s, TransientMarker)
  }

  /** The message of the TypeError `response.message.includes(...)` throws when the message is not a string. */
  const IncludesTypeError: string := "response.message.includes is not a function"

  /** The TypeError's message does not mention the exhausted pool: it has no 'v'. */
  lemma TypeErrorNotTransient()
    ensures !Contains(IncludesTypeError, TransientMarker)
  {
    assert 'v' !in IncludesTypeError;
    ContainsKeepsChars(IncludesTypeError, TransientMarker, 'v');
    assert 'v' in TransientMarker;
  }

  /**
   * The failure the loader's error handling ends up with. In
   * `loadInitialData` and `fetchFilteredComponents`, a reported message that
   * is truthy but not a string makes `response.message.includes(...)` throw
   * a TypeError inside the `try`, so the `catch` block handles that
   * TypeError instead of the reported failure. `Obj` stands for an object
   * without an `includes` method here; an array message is not modelled.
   */
  function Handled(loader: Loader, failure: Failure): (h: Failure)
    ensures h.Reported? ==> h == failure
    ensures h != failure <==>
      loader != MasterData && failure.Reported? && Truthy(failure.message) && !failure.message.Str?
    ensures h != failure ==> h == Thrown(Str(IncludesTypeError))
  {
    if loader != MasterData && failure.Reported? && Truthy(failure.message) && !failure.message.Str? then
      Thrown(Str(IncludesTypeError))
    else failure
  }

  /** The failure handled in its place is transient exactly when the original one is. */
  lemma HandledKeepsTransient(loader: Loader, failure: Failure)
    ensures Transient(loader, Handled(loader, failure)) <==> Transient(loader, failure)
  {
    if Handled(loader, failure) != failure {
      TypeErrorNotTransient();
    }
  }

  /** The error shown when the pool is still exhausted after `attempts` attempts. */
  function ExhaustedMessage(loader: Loader, attempts: nat): string
  {
    match loader
    case FilteredComponents =>
      "Database connection pool exhausted. Please try again in a few minutes. " + AttemptsNote(attempts)
    case _ =>
      "Database connection pool exhausted. Please wait 2-3 minutes and try again. If the issue persists, contact the backend team. "
      + AttemptsNote(attempts)
  }

  function AttemptsNote(attempts: nat): string
  {
    "(Attempted " + NatToText(attempts) + " times)"
  }

  /** The notice shown while `loadInitialData` or `fetchMasterData` waits. */
  function RetryNotice(seconds: nat, retryCount: nat): string
  {
    "Database connection pool exhausted. Retrying in " + NatToText(seconds) + " seconds... (Attempt "
    + NatToText(retryCount + 1) + "/3)"
  }

  /** The error shown for any other failure. */
  function FailureMessage(loader: Loader, failure: Failure): (text: string)
    ensures var m := failure.message;
      m.Str? && m.s != "" ==> |text| >= |m.s| && text[|text| - |m.s|..] == m.s
  {
    match (loader, failure)
    case (FilteredComponents, Reported(m)) => "Backend filtering failed: " + ToText(m)
    case (FilteredComponents, Thrown(m)) => "Failed to fetch filtered data: " + ToText(Or(m, Str("Unknown error")))
    case (InitialData, Reported(m)) => "Failed to load initial data: " + ToText(m)
    case (InitialData, Thrown(m)) => "Failed to load initial data: " + ToText(Or(m, Str("Unknown error")))
    case (MasterData, Reported(m)) => "API Error: " + ToText(Or(m, Str("Unknown error")))
    case (MasterData, Thrown(m)) => "Failed to load master data: " + MasterErrorText(m)
  }

  /** The error message the page shows when it gives up. */
  function ErrorMessage(loader: Loader, reason: Reason): string
  {
    match reason
    case PoolExhausted(attempts) => ExhaustedMessage(loader, attempts)
    case Failed(failure) => FailureMessage(loader, failure)
  }

  /** The decision after a failure on attempt `retryCount + 1`. */
  function Decide(loader: Loader, failure: Failure, retryCount: nat): (d: Decision)
    ensures d.RetryAfter? <==> Transient(loader, failure) && retryCount < MaxRetries
    ensures d.RetryAfter? ==> d.seconds == Delay(loader, retryCount)
    ensures d.RetryAfter? ==> (d.notice.None? <==> loader == FilteredComponents)
    ensures Transient(loader, failure) && retryCount >= MaxRetries ==> d == GiveUp(PoolExhausted(retryCount + 1))
    ensures !Transient(loader, failure) ==> d == GiveUp(Failed(Handled(loader, failure)))
  {
    if Transient(loader, failure) then
      if retryCount < MaxRetries then
        var seconds := Delay(loader, retryCount);
        RetryAfter(seconds, if loader == FilteredComponents then None else Some(RetryNotice(seconds, retryCount)))
      else GiveUp(PoolExhausted(retryCount + 1))
    else GiveUp(Failed(Handled(loader, failure)))
  }

  /** The master data's reported failures are never retried, whatever their message. */
  lemma MasterReportedNeverRetried(message: Value, retryCount: nat)
    ensures Decide(MasterData, Reported(message), retryCount) == GiveUp(Failed(Reported(message)))
    ensures ErrorMessage(MasterData, Failed(Reported(message))) == "API Error: " + ToText(Or(message, Str("Unknown error")))
  {
  }

  /**
   * In the initial and filtered loads, a reported failure whose message is
   * a number, `true` or a (non-array) object is never retried: the page
   * shows the TypeError's message, as its `catch` block words a thrown error.
   */
  lemma NonStringMessageThrows(loader: Loader, message: Value, retryCount: nat)
    requires loader != MasterData && Truthy(message) && !message.Str?
    ensures Decide(loader, Reported(message), retryCount) == GiveUp(Failed(Thrown(Str(IncludesTypeError))))
    ensures ErrorMessage(loader, Failed(Thrown(Str(IncludesTypeError)))) ==
      (if loader == InitialData then "Failed to load initial data: " else "Failed to fetch filtered data: ") + IncludesTypeError
  {
    assert !Transient(loader, Reported(message));
  }

  /** The delays: 2, 4, 6 seconds for filtered data; 2, 4, 8 for the other two loads. */
  lemma DelaySchedules()
    ensures [Delay(FilteredComponents, 0), Delay(FilteredComponents, 1), Delay(FilteredComponents, 2)] == [2, 4, 6]
    ensures [Delay(InitialData, 0), Delay(InitialData, 1), Delay(InitialData, 2)] == [2, 4, 8]
    ensures [Delay(MasterData, 0), Delay(MasterData, 1), Delay(MasterData, 2)] == [2, 4, 8]
  {
    assert Pow2(2) == 4 by {
      assert Pow2(1) == 2;
    }
  }

  /** The exponential schedule never waits less than the linear one. */
  lemma {:induction false} ExponentialAtLeastLinear(retryCount: nat)
    ensures Delay(InitialData, retryCount) >= Delay(FilteredComponents, retryCount)
  {
    if retryCount > 0 {
      ExponentialAtLeastLinear(retryCount - 1);
    }
  }

  /** A run of attempts that fail in turn: how many were made, how long was waited, and how it ended. */
  datatype Run = Run(attempts: nat, waited: nat, last: Decision)

  /** The attempts made from attempt `retryCount + 1` on, when each fails with the next failure of `failures`. */
  function Attempts(loader: Loader, failures: seq<Failure>, retryCount: nat): (run: Run)
    requires |failures| > 0
    decreases |failures|
  {
    var d := Decide(loader, failures[0], retryCount);
    if d.RetryAfter? && |failures| > 1 then
      var rest := Attempts(loader, failures[1..], retryCount + 1);
      Run(rest.attempts + 1, rest.waited + d.seconds, rest.last)
    else Run(1, 0, d)
  }

  /** However the failures go, a load is attempted at most four times in all. */
  lemma {:induction false} AtMostFourAttempts(loader: Loader, failures: seq<Failure>, retryCount: nat)
    requires |failures| > 0 && retryCount <= MaxRetries
    ensures 1 <= Attempts(loader, failures, retryCount).attempts <= MaxRetries + 1 - retryCount
    decreases |failures|
  {
    var d := Decide(loader, failures[0], retryCount);
    if d.RetryAfter? && |failures| > 1 {
      AtMostFourAttempts(loader, failures[1..], retryCount + 1);
    }
  }

  /** The waits before the retries from `retryCount + 1` on, added up. */
  function TotalDelay(loader: Loader, retryCount: nat): nat
    decreases MaxRetries - retryCount
  {
    if retryCount >= MaxRetries then 0 else Delay(loader, retryCount) + TotalDelay(loader, retryCount + 1)
  }

  /** A transient failure before the last retry is followed by the remaining attempts, after its delay. */
  lemma AttemptsAfterRetry(loader: Loader, failures: seq<Failure>, retryCount: nat)
    requires |failures| > 1 && Transient(loader, failures[0]) && retryCount < MaxRetries
    ensures var rest := Attempts(loader, failures[1..], retryCount + 1);
      Attempts(loader, failures, retryCount) == Run(rest.attempts + 1, rest.waited + Delay(loader, retryCount), rest.last)
  {
  }

  lemma {:induction false} PersistentFailureFrom(loader: Loader, failures: seq<Failure>, retryCount: nat)
    requires retryCount <= MaxRetries && |failures| >= MaxRetries + 1 - retryCount
    requires forall i :: 0 <= i < |failures| ==> Transient(loader, failures[i])
    ensures var run := Attempts(loader, failures, retryCount);
      && run.attempts == MaxRetries + 1 - retryCount
      && run.waited == TotalDelay(loader, retryCount)
      && run.last == GiveUp(PoolExhausted(MaxRetries + 1))
    decreases MaxRetries - retryCount
  {
    assert Transient(loader, failures[0]);
    if retryCount < MaxRetries {
      var rest := failures[1..];
      forall i | 0 <= i < |rest|
        ensures Transient(loader, rest[i])
      {
        assert rest[i] == failures[i + 1];
      }
      PersistentFailureFrom(loader, rest, retryCount + 1);
      AttemptsAfterRetry(loader, failures, retryCount);
    }
  }

  /**
   * When the pool stays exhausted, a load is tried four times and ends with
   * "(Attempted 4 times)", after waiting 12 seconds in all for filtered data
   * and 14 for the other two loads.
   */
  lemma PersistentFailure(loader: Loader, failures: seq<Failure>)
    requires |failures| >= 4
    requires forall i :: 0 <= i < |failures| ==> Transient(loader, failures[i])
    ensures var run := Attempts(loader, failures, 0);
      && run.attempts == 4
      && run.last == GiveUp(PoolExhausted(4))
      && run.waited == if loader == FilteredComponents then 12 else 14
  {
    PersistentFailureFrom(loader, failures, 0);
    DelaySchedules();
  }

  /** The error after the last attempt counts the attempts: "(Attempted 4 times)" after four. */
  lemma ExhaustedMessageCountsAttempts(loader: Loader)
    ensures var m := ErrorMessage(loader, PoolExhausted(MaxRetries + 1));
      |m| > 19 && m[|m| - 19..] == "(Attempted 4 times)"
  {
    var note := AttemptsNote(MaxRetries + 1);
    assert NatToText(4) == "4";
    assert note == "(Attempted 4 times)";
    var m := ErrorMessage(loader, PoolExhausted(MaxRetries + 1));
    var head := m[..|m| - |note|];
    assert m == head + note;
  }
}
