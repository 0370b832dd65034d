/**
 * Configuration errors (config/errors.go): three sentinel causes and
 * ConfigError, whose Error method renders key, value and cause.
 */
module ConfigErrors {
  import opened Wrappers

  /** The error a ConfigError wraps: one of the package's sentinels or any other error. */
  datatype Cause = ErrNoKey | ErrNilValue | ErrInvalidValue | Other(text: string)

  function CauseText(c: Cause): string {
    match c
    case ErrNoKey => "config key does not exist"
    case ErrNilValue => "config key has no or invalid value"
    case ErrInvalidValue => "value is invalid"
    case Other(text) => text
  }

  /** `err` is None for a nil error interface. */
  datatype ConfigError = ConfigError(key: string, value: string, err: Option<Cause>)

  /** What calling Error() produces: a string, or the nil dereference of `e.Err.Error()`. */
  datatype Rendering = Text(s: string) | NilDereference

  /** ConfigError.Error: a switch with no default branch, so an empty key renders as "". */
  function Error(e: ConfigError): (r: Rendering)
    ensures e.key == "" ==> r == Text("")
    ensures e.key != "" ==> (r == NilDereference <==> e.err.None?)
    ensures e.key != "" && e.value != "" && e.err.Some? ==>
      r == Text("key=" + e.key + " value=" + e.value + ": " + CauseText(e.err.value))
    ensures e.key != "" && e.value == "" && e.err.Some? ==>
      r == Text("key=" + e.key + " value=<nil>: " + CauseText(e.err.value))
  {
    if e.key != "" && e.value != "" then
      if e.err.None? then NilDereference
      else Text("key=" + e.key + " value=" + e.value + ": " + CauseText(e.err.value))
    else if e.key != "" then
      if e.err.None? then NilDereference
      else Text("key=" + e.key + " value=<nil>: " + CauseText(e.err.value))
    else
      Text("")
  }

  /** The three sentinels are told apart by their messages. */
  lemma SentinelsDistinct()
    ensures CauseText(ErrNoKey) != CauseText(ErrNilValue)
    ensures CauseText(ErrNoKey) != CauseText(ErrInvalidValue)
    ensures CauseText(ErrNilValue) != CauseText(ErrInvalidValue)
  {
    assert CauseText(ErrNoKey)[7] == 'k' && CauseText(ErrNilValue)[7] == 'k';
    assert CauseText(ErrNoKey)[11] == 'd' && CauseText(ErrNilValue)[11] == 'h';
  }

  /** An empty value is rendered as the text "<nil>", so it cannot be told apart from that value. */
  lemma EmptyValueLooksNil(key: string, cause: Cause)
    requires key != ""
    ensures Error(ConfigError(key, "", Some(cause))) == Error(ConfigError(key, "<nil>", Some(cause)))
  {
  }
}
