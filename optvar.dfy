/**
 * The error helpers of the optional-variable package: the error for a
 * variable that is required but has no data source, and the choice of
 * error when a variable is looked up.
 */
module OptVar {
  import opened Wrappers

  /** The package's errors, and the error a data source reports. */
  datatype VarError =
    | ErrDataSourceIsNil
    | MissingRequiredVarError(name: string)
    | SourceError(message: string)

  const MissingPrefix := "missing required `"
  const MissingSuffix := "`"

  /** Error(): the message of each error. */
  function Message(e: VarError): string
  {
    match e
    case ErrDataSourceIsNil => "data source is nil"
    case MissingRequiredVarError(name) => MissingPrefix + name + MissingSuffix
    case SourceError(message) => message
  }

  /** A data source and the error it holds (nil when it has none). */
  datatype Source = Source(err: Option<VarError>)

  /** MissingRequiredVar: the missing-variable error for name. */
  function MissingRequiredVar(name: string): (e: VarError)
    ensures e.MissingRequiredVarError? && e.name == name
  {
    MissingRequiredVarError(name)
  }

  /**
   * getError: a source's own error wins whatever `required` says; with no
   * source, a required variable is missing and an optional one is fine.
   */
  function GetError(required: bool, src: Option<Source>, name: string): (r: Option<VarError>)
    ensures src.Some? ==> r == src.value.err
    ensures src.None? && required ==> r == Some(MissingRequiredVarError(name))
    ensures src.None? && !required ==> r.None?
  {
    if src.Some? then src.value.err
    else if required then Some(MissingRequiredVar(name))
    else None
  }

  /** The name of the variable a missing-variable message is about, read back from the message. */
  function NameInMessage(m: string): string
    requires |m| >= |MissingPrefix| + |MissingSuffix|
  {
    m[|MissingPrefix|..|m| - |MissingSuffix|]
  }

  /**
   * The missing-variable message is the name in backquotes after
   * "missing required ", and the name can be read back out of it, so
   * different names give different messages.
   */
  lemma MissingMessageRoundTrip(name: string)
    ensures var m := Message(MissingRequiredVar(name));
      |m| == |name| + 19 && m[..|MissingPrefix|] == MissingPrefix && m[|m| - 1] == '`'
      && NameInMessage(m) == name
  {
    var m := Message(MissingRequiredVar(name));
    assert m == MissingPrefix + name + MissingSuffix;
    assert m[|MissingPrefix|..|m| - |MissingSuffix|] == name;
  }

  /** Different variables are reported with different messages. */
  lemma MissingMessagesDiffer(a: string, b: string)
    requires a != b
    ensures Message(MissingRequiredVar(a)) != Message(MissingRequiredVar(b))
  {
    MissingMessageRoundTrip(a);
    MissingMessageRoundTrip(b);
  }

  /** A required variable is reported missing exactly when it has no source; an optional one never is. */
  lemma MissingOnlyWithoutSource(required: bool, src: Option<Source>, name: string)
    requires src.None? || src.value.err.None? || !src.value.err.value.MissingRequiredVarError?
    ensures (GetError(required, src, name) == Some(MissingRequiredVarError(name))) <==> (src.None? && required)
  {
  }
}
