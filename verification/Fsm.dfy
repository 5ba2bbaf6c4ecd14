/**
 The table-driven engine shared by client abstraction, control and HAL.
 */
module Fsm {
  import opened Common

  /** What an operation hands back to the engine: -1, a state, or -2 and below. */
  datatype Ret<+S> = Stay | Goto(state: S) | Fail

  /** One table cell: the forced state, if any, and the operation (a null one is `Nop`,
      an operation of the machine's own type). */
  datatype Cell<+S, +O> = Cell(forced: Option<S>, op: O)

  /** The state the engine settles on. A failed operation is replaced by the failsafe one,
      which a forced state does not override; a negative state left by the failsafe
      operation is rejected by the range checks that follow (None). */
  function NextState<S>(current: S, forced: Option<S>, op: Ret<S>, failsafe: Ret<S>): (next: Option<S>)
    ensures op.Fail? ==> (next.Some? <==> failsafe.Goto?)
    ensures !op.Fail? ==> next.Some?
  {
    if op.Fail? then
      if failsafe.Goto? then Some(failsafe.state) else None
    else if forced.Some? then
      forced
    else if op.Goto? then
      Some(op.state)
    else
      Some(current)
  }
}
