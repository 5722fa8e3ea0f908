/**
 * `ErrorBoundaryBase` (src/components/ui/ErrorBoundary.tsx): the caught-error
 * state, its reset, and what the boundary renders. The toast and console
 * logging in `componentDidCatch` are not modelled; the optional `onReset`
 * callback is reported as whether it was called.
 */
module ErrorBoundary {
  import opened Base

  /** A thrown `Error`; only its message is read. */
  datatype Error = Error(message: string)

  /** React's `ErrorInfo`; only its component stack is carried. */
  datatype ErrorInfo = ErrorInfo(componentStack: string)

  /** A React node passed as `children` or `fallback`; `Empty` is a falsy node (`null`, `''`, `false`). */
  datatype Node = Empty | Node(content: string)

  /** The text under "Something went wrong" when no usable message is present. */
  const DefaultMessage := "An unexpected error occurred."

  /** What the boundary renders. */
  datatype View = Children(children: Node) | Fallback(fallback: Node) | Panel(message: string)

  /** `this.state.error?.message || 'An unexpected error occurred.'` */
  function PanelMessage(error: Option<Error>): (m: string)
    ensures m != ""
    ensures error.Some? && error.value.message != "" ==> m == error.value.message
    ensures error.None? || error.value.message == "" ==> m == DefaultMessage
  {
    if error.Some? && error.value.message != "" then error.value.message else DefaultMessage
  }

  /**
   * `render()`: the children while there is no error; otherwise a truthy
   * fallback, or else the default panel with the error's message.
   */
  function Render(hasError: bool, error: Option<Error>, children: Node, fallback: Node): (v: View)
    ensures !hasError <==> v.Children?
    ensures v.Children? ==> v.children == children
    ensures v.Fallback? <==> hasError && fallback != Empty
    ensures v.Fallback? ==> v.fallback == fallback
    ensures v.Panel? ==> v.message == PanelMessage(error)
  {
    if hasError then
      if fallback != Empty then Fallback(fallback) else Panel(PanelMessage(error))
    else Children(children)
  }

  /** The state `getDerivedStateFromError` returns, as a patch. */
  datatype DerivedState = DerivedState(hasError: bool, error: Error)

  /** `getDerivedStateFromError(error)`: raise the flag and record the error. */
  function DerivedStateFromError(e: Error): (d: DerivedState)
    ensures d.hasError && d.error == e
  {
    DerivedState(true, e)
  }

  /** After an error is caught the panel shows its message, or the default text when the message is empty. */
  lemma {:induction false} CaughtErrorIsShown(e: Error, children: Node)
    ensures var d := DerivedStateFromError(e);
            Render(d.hasError, Some(d.error), children, Empty) ==
              Panel(if e.message == "" then DefaultMessage else e.message)
  {
  }

  /** The boundary's state. */
  class Boundary {
    var hasError: bool
    var error: Option<Error>
    var errorInfo: Option<ErrorInfo>

    /** An error is recorded exactly when the flag is up. */
    predicate Valid()
      reads this
    {
      hasError <==> error.Some?
    }

    /** No error, no error info. */
    constructor ()
      ensures Valid() && !hasError && error == None && errorInfo == None
    {
      hasError := false;
      error := None;
      errorInfo := None;
    }

    /** React merging the state `getDerivedStateFromError` returned. */
    method ApplyDerivedState(e: Error)
      modifies this
      ensures Valid() && hasError && error == Some(e) && errorInfo == old(errorInfo)
    {
      var d := DerivedStateFromError(e);
      hasError := d.hasError;
      error := Some(d.error);
    }

    /** `componentDidCatch(error, errorInfo)`: records the error info, nothing else. */
    method DidCatch(e: Error, info: ErrorInfo)
      requires Valid()
      modifies this
      ensures Valid() && errorInfo == Some(info)
      ensures hasError == old(hasError) && error == old(error)
    {
      errorInfo := Some(info);
    }

    /** `handleReset`: clear the three fields, then call `onReset` exactly when it was given. */
    method HandleReset(hasOnReset: bool) returns (calledOnReset: bool)
      modifies this
      ensures Valid() && !hasError && error == None && errorInfo == None
      ensures calledOnReset == hasOnReset
    {
      hasError := false;
      error := None;
      errorInfo := None;
      calledOnReset := false;
      if hasOnReset {
        calledOnReset := true;
      }
    }

    /** What `render()` returns for the current state. */
    method Show(children: Node, fallback: Node) returns (v: View)
      requires Valid()
      ensures v == Render(hasError, error, children, fallback)
      ensures !hasError ==> v == Children(children)
      ensures hasError && fallback == Empty ==> v.Panel? && v.message != ""
    {
      v := Render(hasError, error, children, fallback);
    }
  }
}
