/**
 * The notification hook (`useSnackbar` in src/hooks/useSnackbar.ts): one
 * record, overwritten by `showSnackbar` and closed by `hideSnackbar`.
 */
module Snackbar {
  import opened Types

  datatype Severity = Success | Error | Warning | Info

  datatype SnackbarState = SnackbarState(open: bool, message: string, severity: Severity)

  const Closed := SnackbarState(false, "", Info)

  /** `showSnackbar(message, severity = 'info')`; an omitted or `undefined` severity is `None`. */
  function Shown(message: string, severity: Option<Severity>): (s: SnackbarState)
    ensures s.open && s.message == message
    ensures severity.Some? ==> s.severity == severity.value
    ensures severity.None? ==> s.severity == Info
  {
    SnackbarState(true, message, severity.GetOr(Info))
  }

  /** `hideSnackbar`: closed, message and severity kept. */
  function Hidden(prev: SnackbarState): (s: SnackbarState)
    ensures !s.open && s.message == prev.message && s.severity == prev.severity
  {
    prev.(open := false)
  }

  lemma HideIdempotent(s: SnackbarState)
    ensures Hidden(Hidden(s)) == Hidden(s)
  {
  }

  /** Hiding a just-shown snackbar keeps what was shown and only closes it. */
  lemma ShowThenHide(message: string, severity: Option<Severity>)
    ensures Hidden(Shown(message, severity)) == SnackbarState(false, message, severity.GetOr(Info))
  {
  }

  class SnackbarHook {
    var snackbar: SnackbarState

    constructor ()
      ensures snackbar == Closed
    {
      snackbar := Closed;
    }

    /** Overwrites the record, whether it was open or closed. */
    method ShowSnackbar(message: string, severity: Option<Severity>)
      modifies this
      ensures snackbar == Shown(message, severity)
    {
      snackbar := SnackbarState(true, message, severity.GetOr(Info));
    }

    method HideSnackbar()
      modifies this
      ensures snackbar == Hidden(old(snackbar))
    {
      snackbar := snackbar.(open := false);
    }
  }
}
