/**
 * The driver package's error values (drivers/errors.go): three sentinels and the
 * two wrapping errors ActionError and UnmarshalError.
 */
module DriverErrors {
  import opened Wrappers
  import opened GoStd
  import ConfigErrors

  datatype Error =
    | ErrUnknownModel
    | ErrNoDrivers
    | ErrUnknown
      /** An operation named `action` failed because of `err`. */
    | ActionError(action: string, err: Error)
      /** A response body that did not decode; `rawData` is the body as received. */
    | UnmarshalError(rawData: seq<byte>, err: Error)
      /** A configuration error raised by a driver constructor. */
    | ConfigError(config: ConfigErrors.ConfigError)
      /** An error made by errors.New, fmt.Errorf without %w or a library, known by its text. */
    | Msg(text: string)

  /** errors.Unwrap: the wrapped error of ActionError and UnmarshalError, nothing for the others. */
  function Unwrap(e: Error): (r: Option<Error>)
    ensures r.Some? <==> e.ActionError? || e.UnmarshalError?
    ensures e.ActionError? || e.UnmarshalError? ==> r == Some(e.err)
    ensures r.Some? ==> r.value < e
  {
    match e
    case ActionError(_, err) => Some(err)
    case UnmarshalError(_, err) => Some(err)
    case _ => None
  }

  /**
   * errors.Is over the Unwrap chain, comparing with ==. The model compares by
   * value: two Msg errors with the same text, or two UnmarshalErrors over equal
   * bytes, are one error here, where Go tells apart the separately allocated
   * values fmt.Errorf and errors.New return and the RawData pointers.
   */
  predicate Is(e: Error, target: Error)
    decreases e
  {
    e == target || (Unwrap(e).Some? && Is(Unwrap(e).value, target))
  }

  const ActionPrefix := "action error: "

  /**
   * The Error method of each kind. `rendered` is what fmt's %e verb makes of an
   * ActionError's cause, which the driver formats with a verb errors do not
   * support. A ConfigError renders as config/errors.go does, including the nil
   * dereference of a missing cause.
   */
  function ErrorText(e: Error, rendered: string): (r: ConfigErrors.Rendering)
    ensures e.ActionError? ==> r == ConfigErrors.Text(ActionPrefix + e.action + " failed with " + rendered)
    ensures e.UnmarshalError? ==> r == ConfigErrors.Text("failed to unmarshal response")
    ensures e.ConfigError? ==> r == ConfigErrors.Error(e.config)
    ensures r.NilDereference? ==> e.ConfigError? && e.config.key != "" && e.config.err.None?
  {
    match e
    case ErrUnknownModel => ConfigErrors.Text("attempting to get unknown model")
    case ErrNoDrivers => ConfigErrors.Text("no drivers were registered")
    case ErrUnknown => ConfigErrors.Text("unknown error")
    case ActionError(action, _) => ConfigErrors.Text(ActionPrefix + action + " failed with " + rendered)
    case UnmarshalError(_, _) => ConfigErrors.Text("failed to unmarshal response")
    case ConfigError(c) => ConfigErrors.Error(c)
    case Msg(text) => ConfigErrors.Text(text)
  }

  /** Wrapping keeps the cause reachable: an ActionError is its cause by errors.Is. */
  lemma {:induction false} ActionErrorIsCause(action: string, raw: seq<byte>, cause: Error, target: Error)
    requires Is(cause, target)
    ensures Is(ActionError(action, cause), target)
    ensures Is(ActionError(action, UnmarshalError(raw, cause)), target)
  {
    assert Unwrap(ActionError(action, cause)) == Some(cause);
    assert Unwrap(UnmarshalError(raw, cause)) == Some(cause);
    assert Is(UnmarshalError(raw, cause), target);
  }

  /** UnmarshalError's text never depends on its fields. */
  lemma UnmarshalTextConstant(raw1: seq<byte>, raw2: seq<byte>, e1: Error, e2: Error, r1: string, r2: string)
    ensures ErrorText(UnmarshalError(raw1, e1), r1) == ErrorText(UnmarshalError(raw2, e2), r2)
  {
  }

  /** The text of an ActionError starts with the prefix and the action, whatever the cause. */
  lemma ActionTextPrefix(action: string, cause: Error, rendered: string)
    ensures ErrorText(ActionError(action, cause), rendered).Text?
    ensures var t := ErrorText(ActionError(action, cause), rendered).s;
      |t| >= |ActionPrefix| + |action| &&
      t[..|ActionPrefix|] == ActionPrefix &&
      t[|ActionPrefix|..|ActionPrefix| + |action|] == action
  {
  }

  /** The three sentinels are distinct values with distinct messages. */
  lemma SentinelsDistinct()
    ensures ErrorText(ErrUnknownModel, "") != ErrorText(ErrNoDrivers, "")
    ensures ErrorText(ErrUnknownModel, "") != ErrorText(ErrUnknown, "")
    ensures ErrorText(ErrNoDrivers, "") != ErrorText(ErrUnknown, "")
  {
    assert ErrorText(ErrUnknownModel, "").s[0] == 'a';
    assert ErrorText(ErrNoDrivers, "").s[0] == 'n';
    assert ErrorText(ErrUnknown, "").s[0] == 'u';
  }
}
