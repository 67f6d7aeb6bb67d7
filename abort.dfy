/**
 * The DOM `AbortController` / `AbortSignal` pair that `downloadData` creates
 * for each call. A signal is reduced to its abort reason: it is aborted exactly
 * when the reason is set. Aborting follows the "signal abort" algorithm of
 * section 3.2 of the WHATWG DOM Standard: an already aborted signal is left as
 * it is, and a missing reason becomes a new "AbortError" DOMException. Abort
 * algorithms and the `abort` event are not part of this model.
 */
module Abort {
  import opened StorageCommon

  /** An abort reason: the caller's error, or the default "AbortError" DOMException. */
  datatype ErrorValue = AbortError | Raised(message: string)

  /** "Signal abort" on the abort reason alone (`None` while the signal is active). */
  function SignalAbort(current: Option<ErrorValue>, reason: Option<ErrorValue>): (next: Option<ErrorValue>)
    ensures next.Some?
    ensures current.Some? ==> next == current
    ensures current.None? ==> next == Some(reason.GetOr(AbortError))
  {
    if current.Some? then current else Some(reason.GetOr(AbortError))
  }

  /** The abort reason after `abort` has been called with each of `reasons` in turn. */
  function SignalAbortAll(current: Option<ErrorValue>, reasons: seq<Option<ErrorValue>>): (final: Option<ErrorValue>)
    decreases |reasons|
  {
    if reasons == [] then current else SignalAbortAll(SignalAbort(current, reasons[0]), reasons[1..])
  }

  /** No number of further `abort` calls changes the reason of an aborted signal. */
  lemma {:induction false} AbortedSignalIgnoresAbort(reason: ErrorValue, reasons: seq<Option<ErrorValue>>)
    ensures SignalAbortAll(Some(reason), reasons) == Some(reason)
    decreases |reasons|
  {
    if reasons != [] {
      AbortedSignalIgnoresAbort(reason, reasons[1..]);
    }
  }

  /**
   * Aborting an active signal several times has the effect of aborting it once,
   * with the first call's reason (or "AbortError" when that call gave none).
   */
  lemma {:induction false} FirstAbortWins(reasons: seq<Option<ErrorValue>>)
    requires reasons != []
    ensures SignalAbortAll(None, reasons) == SignalAbortAll(None, reasons[..1])
    ensures SignalAbortAll(None, reasons) == Some(reasons[0].GetOr(AbortError))
  {
    var first := reasons[0].GetOr(AbortError);
    AbortedSignalIgnoresAbort(first, reasons[1..]);
    AbortedSignalIgnoresAbort(first, []);
  }

  /** The signal object; `reason` is its abort reason. */
  class AbortSignal {
    var reason: Option<ErrorValue>

    /** A fresh signal is active: it has no abort reason. */
    constructor ()
      ensures reason == None
    {
      reason := None;
    }

    /** The `aborted` getter: whether an abort reason is set. */
    predicate Aborted()
      reads this
    {
      reason.Some?
    }
  }

  /** The controller owns one signal for its whole life. */
  class AbortController {
    const signal: AbortSignal

    /** `new AbortController()`: a controller with a fresh, active signal. */
    constructor ()
      ensures fresh(signal) && !signal.Aborted()
    {
      signal := new AbortSignal();
    }

    /** `abort(reason)`: signal abort on the controller's signal; changes nothing else. */
    method Abort(reason: Option<ErrorValue>)
      modifies signal
      ensures signal.reason == SignalAbort(old(signal.reason), reason)
      ensures signal.Aborted()
      ensures old(signal.Aborted()) ==> signal.reason == old(signal.reason)
    {
      if signal.reason == None {
        signal.reason := Some(reason.GetOr(AbortError));
      }
    }
  }
}
