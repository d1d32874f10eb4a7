/** The program's entry point: validate the configuration, connect to the
    BusinessMap API with up to three attempts, then serve over HTTP or
    standard input/output. The outcome of each connection attempt is an
    input, indexed by attempt number; the two-second pause between attempts
    is counted, not waited. */
module Startup {
  import opened JsValue
  import opened Environment

  const MaxRetries: nat := 3

  /** The first of the first `n` attempts that succeeds, if any. */
  function FirstSuccess(attempt: nat -> Result<()>, n: nat): (r: Option<nat>)
    ensures r.Some? ==> r.value < n && attempt(r.value).Ok? && forall i :: 0 <= i < r.value ==> attempt(i).Throw?
    ensures r.None? ==> forall i :: 0 <= i < n ==> attempt(i).Throw?
  {
    if n == 0 then None
    else
      var earlier := FirstSuccess(attempt, n - 1);
      if earlier.Some? then earlier
      else if attempt(n - 1).Ok? then Some(n - 1)
      else None
  }

  /** The retry loop. `attempts` counts calls to `initialize`, `retryCount`
      the failed ones, `delays` the pauses taken before a retry. The loop
      stops at the first success; after the third failure the last error is
      rethrown. */
  method ConnectWithRetry(attempt: nat -> Result<()>)
    returns (attempts: nat, retryCount: nat, delays: nat, outcome: Result<()>)
    ensures 1 <= attempts <= MaxRetries
    ensures match FirstSuccess(attempt, MaxRetries)
      case Some(i) => attempts == i + 1 && outcome == Ok(()) && retryCount == i
      case None => attempts == MaxRetries && retryCount == MaxRetries && outcome == attempt(MaxRetries - 1)
    ensures delays == attempts - 1
  {
    retryCount := 0;
    attempts := 0;
    delays := 0;
    outcome := Ok(());
    while retryCount < MaxRetries
      invariant retryCount == attempts == delays < MaxRetries
      invariant forall i :: 0 <= i < attempts ==> attempt(i).Throw?
      decreases MaxRetries - retryCount
    {
      var r := attempt(attempts);
      attempts := attempts + 1;
      if r.Ok? {
        outcome := Ok(());
        assert FirstSuccess(attempt, MaxRetries) == Some(attempts - 1) by {
          FirstSuccessAt(attempt, attempts - 1, MaxRetries);
        }
        return;
      }
      retryCount := retryCount + 1;
      if retryCount < MaxRetries {
        delays := delays + 1;
      } else {
        outcome := r;
        return;
      }
    }
    // The loop never ends by its guard: at the top of every iteration
    // fewer than MaxRetries attempts have failed, and the attempt that
    // makes it MaxRetries returns from inside the loop.
    assert false;
  }

  /** An attempt that succeeds after only failures is the first success. */
  lemma {:induction false} FirstSuccessAt(attempt: nat -> Result<()>, i: nat, n: nat)
    requires i < n && attempt(i).Ok? && forall j :: 0 <= j < i ==> attempt(j).Throw?
    ensures FirstSuccess(attempt, n) == Some(i)
  {
    if n - 1 > i {
      FirstSuccessAt(attempt, i, n - 1);
    } else {
      assert FirstSuccess(attempt, n - 1).None?;
    }
  }

  /** How `main` ends: serving on a transport, or exiting with a code. */
  datatype Outcome = Serving(transport: TransportKind) | Exit(code: int, error: Thrown)

  /** `main`: any error from validation, from the last connection attempt
      or from starting the transport ends the process with code 1; otherwise
      the configured transport is serving. Whether starting each kind of
      transport succeeds is an input. */
  method RunMain(c: Config, isValidUrl: string -> bool, attempt: nat -> Result<()>, start: TransportKind -> Result<()>)
    returns (outcome: Outcome, attempts: nat)
    ensures ValidateConfig(c, isValidUrl).Throw? ==> outcome == Exit(1, ValidateConfig(c, isValidUrl).error) && attempts == 0
    ensures ValidateConfig(c, isValidUrl).Ok? && FirstSuccess(attempt, MaxRetries).None? ==>
      outcome == Exit(1, attempt(MaxRetries - 1).error) && attempts == MaxRetries
    ensures ValidateConfig(c, isValidUrl).Ok? && FirstSuccess(attempt, MaxRetries).Some? ==>
      attempts == FirstSuccess(attempt, MaxRetries).value + 1
    ensures ValidateConfig(c, isValidUrl).Ok? && FirstSuccess(attempt, MaxRetries).Some? && start(c.transport).Throw? ==>
      outcome == Exit(1, start(c.transport).error)
    ensures outcome.Serving? <==>
      ValidateConfig(c, isValidUrl).Ok? && FirstSuccess(attempt, MaxRetries).Some? && start(c.transport).Ok?
    ensures outcome.Serving? ==> outcome == Serving(c.transport)
  {
    var valid := ValidateConfig(c, isValidUrl);
    if valid.Throw? {
      return Exit(1, valid.error), 0;
    }
    var retryCount, delays, connected;
    attempts, retryCount, delays, connected := ConnectWithRetry(attempt);
    if connected.Throw? {
      return Exit(1, connected.error), attempts;
    }
    var started;
    if c.transport == Http {
      started := start(Http);
    } else {
      started := start(Stdio);
    }
    if started.Throw? {
      return Exit(1, started.error), attempts;
    }
    outcome := Serving(c.transport);
  }
}
