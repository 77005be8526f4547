/** The running/closing/closed machine of one sandbox and its in-flight exec
    counter.  The functions are the critical sections of lifecycleMu as pure
    state changes: the concurrent model in Orchestrator steps with them, and the
    class in Server.dfy implements them on fields. */
module Lifecycle {

  datatype Phase = Running | Closing | Closed

  datatype Life = Life(phase: Phase, inFlight: int)

  /** The new state, and whether the caller was let in. */
  function TryStartExec(l: Life): (Life, bool) {
    if l.phase != Running then (l, false) else (l.(inFlight := l.inFlight + 1), true)
  }

  function FinishExec(l: Life): Life {
    if l.inFlight > 0 then l.(inFlight := l.inFlight - 1) else l
  }

  /** The new state, and whether the caller may tear the sandbox down. */
  function BeginDestroy(l: Life): (Life, bool) {
    if l.phase != Running then (l, false) else (l.(phase := Closing), true)
  }

  function FinishDestroy(l: Life): Life {
    l.(phase := Closed)
  }

}
