/**
 * The errors package: a string error, an error carrying the stack it was
 * thrown from, an error wrapping another with a stack, and unwrapping
 * to the core error. The global trace switch is a field of a class; the
 * stacks are parameters.
 */
module GoErrors {
  import opened Wrappers

  /** The package's error values, and any other error. An OtherError
      stands for an error without a Core() method: Core's assertion to the
      WrappedError interface fails on it, so it is always an innermost
      error (a foreign type with a Core() method is not modelled). */
  datatype GoError =
    | StringError(s: string)
    | TraceError(stack: string, text: string)
    | WrappedError(stack: string, err: Option<GoError>)
    | OtherError(message: string)

  /** Unwrapping stops after this many layers. */
  const MaxWrapLayer: nat := 32

  /** The wrapped error is there all the way down (otherwise Error() dereferences nil). */
  predicate Complete(e: GoError)
  {
    match e
    case WrappedError(_, inner) => inner.Some? && Complete(inner.value)
    case _ => true
  }

  /** Error(): with tracing off the bare text, with tracing on the stack, a newline and the text. */
  function Message(e: GoError, enableTrace: int): (m: string)
    requires Complete(e)
  {
    match e
    case StringError(s) => s
    case TraceError(stack, text) => if enableTrace == 0 then text else stack + "\n" + text
    case WrappedError(stack, inner) =>
      var text := Message(inner.value, enableTrace);
      if enableTrace == 0 then text else stack + "\n" + text
    case OtherError(message) => message
  }

  /** Throw: an error with the stack of its caller. */
  function Throw(stack: string, text: string): (e: GoError)
    ensures Complete(e) && Message(e, 0) == text && Message(e, 1) == stack + "\n" + text
  {
    TraceError(stack, text)
  }

  /** Wrap: err wrapped with the stack of the caller. */
  function Wrap(stack: string, err: Option<GoError>): (e: GoError)
    ensures e.WrappedError? && CoreOf(e) == err
  {
    WrappedError(stack, err)
  }

  /** wrappedError.Core(): the wrapped error. */
  function CoreOf(e: GoError): Option<GoError>
    requires e.WrappedError?
  {
    e.err
  }

  /** The number of wrapping layers around the innermost error. */
  function Depth(e: Option<GoError>): nat
  {
    if e.Some? && e.value.WrappedError? then 1 + Depth(e.value.err) else 0
  }

  /** The error with at most n wrapping layers taken off. */
  function Unwrap(e: Option<GoError>, n: nat): Option<GoError>
  {
    if n == 0 || e.None? || !e.value.WrappedError? then e else Unwrap(e.value.err, n - 1)
  }

  /** Core: unwrap the error, but no more than MaxWrapLayer times. */
  method Core(err: Option<GoError>) returns (r: Option<GoError>)
    ensures r == Unwrap(err, MaxWrapLayer)
  {
    if err.None? {
      return None;
    }
    r := err;
    var c := 0;
    while c < MaxWrapLayer
      invariant 0 <= c <= MaxWrapLayer
      invariant Unwrap(err, MaxWrapLayer) == Unwrap(r, MaxWrapLayer - c)
    {
      c := c + 1;
      if r.None? || !r.value.WrappedError? {
        break;
      }
      r := r.value.err;
    }
  }

  /**
   * Unwrapping n layers takes exactly min(n, depth) of them off: within
   * the limit what is left is not wrapped, beyond it the rest is.
   */
  lemma {:induction false} UnwrapPeels(e: Option<GoError>, n: nat)
    ensures Depth(Unwrap(e, n)) == if Depth(e) <= n then 0 else Depth(e) - n
    ensures Depth(e) <= n ==> (Unwrap(e, n).None? || !Unwrap(e, n).value.WrappedError?)
  {
    if n > 0 && e.Some? && e.value.WrappedError? {
      UnwrapPeels(e.value.err, n - 1);
    }
  }

  /**
   * Core of nil is nil, Core of an error that is not wrapped is that
   * error, and an error wrapped at most 32 times comes out unwrapped.
   */
  lemma CoreRules(e: Option<GoError>)
    ensures e.None? ==> Unwrap(e, MaxWrapLayer) == None
    ensures e.Some? && !e.value.WrappedError? ==> Unwrap(e, MaxWrapLayer) == e
    ensures Depth(e) <= MaxWrapLayer ==> Depth(Unwrap(e, MaxWrapLayer)) == 0
    ensures Depth(e) > MaxWrapLayer ==> Depth(Unwrap(e, MaxWrapLayer)) == Depth(e) - MaxWrapLayer
  {
    UnwrapPeels(e, MaxWrapLayer);
  }

  /** The innermost error under all wrapping layers. */
  function Innermost(e: GoError): (r: GoError)
    requires Complete(e)
    ensures Complete(r) && !r.WrappedError?
    ensures !e.WrappedError? ==> r == e
  {
    if e.WrappedError? then Innermost(e.err.value) else e
  }

  /**
   * With tracing off a wrapped error reads as the error it wraps, all the
   * way down; with tracing on each layer puts its stack in front.
   */
  lemma {:induction false} MessageThroughWraps(e: GoError)
    requires Complete(e)
    ensures Message(e, 0) == Message(Innermost(e), 0)
    ensures e.WrappedError? ==> Message(e, 1) == e.stack + "\n" + Message(e.err.value, 1)
  {
    if e.WrappedError? {
      MessageThroughWraps(e.err.value);
    }
  }

  /** The string error's text is its message, whatever the switch says. */
  lemma StringErrorText(s: string, flag: int)
    ensures Message(StringError(s), flag) == s
  {
  }

  /** The global trace switch. */
  class TraceSwitch {
    var enableTrace: int

    /** Tracing starts on. */
    constructor()
      ensures enableTrace == 1
    {
      enableTrace := 1;
    }

    method SwitchTrace(on: bool)
      modifies this
      ensures enableTrace == if on then 1 else 0
    {
      if on {
        enableTrace := 1;
      } else {
        enableTrace := 0;
      }
    }

    /** Error() under the current switch. */
    method ErrorText(e: GoError) returns (m: string)
      requires Complete(e)
      ensures m == Message(e, enableTrace)
      ensures enableTrace == 0 ==> m == Message(Innermost(e), 0)
    {
      MessageThroughWraps(e);
      m := Message(e, enableTrace);
    }
  }
}
