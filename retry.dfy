/**
 * The part of the retry library's operation object the driver relies on:
 * a budget of retries, an attempt counter and the errors seen so far. The
 * backoff delays and timers are not modelled; `MainError` is an unspecified
 * choice among the recorded errors.
 */
module Retry {
  import opened Wrappers

  class Operation<E(==)> {
    /** Retries still allowed (the unused timeouts). */
    var remaining: nat
    /** Attempts started so far. */
    var attempts: nat
    /** Every error handed to `Retry`, in order. */
    var errors: seq<E>

    /** `retry.operation(options)`, before its first attempt has run. */
    constructor (retries: nat)
      ensures remaining == retries && attempts == 1 && errors == []
    {
      remaining := retries;
      attempts := 1;
      errors := [];
    }

    /**
     * `operation.retry(err)`: no error means no retry; an error is recorded
     * and a retry is granted while the budget lasts.
     */
    method Retry(error: Option<E>) returns (again: bool)
      modifies this
      ensures error.None? ==> !again && errors == old(errors)
      ensures error.Some? ==> errors == old(errors) + [error.value]
      ensures error.Some? ==> again == (old(remaining) > 0)
      ensures remaining == if again then old(remaining) - 1 else old(remaining)
      ensures attempts == if again then old(attempts) + 1 else old(attempts)
    {
      if error.None? {
        return false;
      }
      errors := errors + [error.value];
      if remaining == 0 {
        return false;
      }
      remaining := remaining - 1;
      attempts := attempts + 1;
      again := true;
    }

    /** `operation.mainError()`: some recorded error, or none if there is none. */
    method MainError() returns (e: Option<E>)
      ensures e.None? <==> errors == []
      ensures e.Some? ==> e.value in errors
    {
      if errors == [] {
        e := None;
      } else {
        assert errors[0] in errors;
        var chosen :| chosen in errors;
        e := Some(chosen);
      }
    }
  }
}
