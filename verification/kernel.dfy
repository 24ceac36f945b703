/**
  The calls a process body makes on the DESMO-J scheduling kernel, taken as abstract actions. The
  kernel itself (event list, clock, the real meaning of these calls) is not part of this model: a
  process body returns, for each resumption, the list of calls it makes before it suspends.
*/
module Kernel {

  datatype Action =
    | Hold(duration: real)                   // suspend; the kernel resumes this process after `duration`
    | Passivate                              // suspend until another process activates this one
    | Activate(target: object, delay: real)  // schedule `target` after `delay`; does not suspend
    | ActivateAfter(target: object)          // schedule `target` right after the current process, same instant

  /** hold and passivate are the only calls that hand control back to the kernel. */
  predicate Suspends(a: Action)
  {
    a.Hold? || a.Passivate?
  }

  /** One resumption ends in exactly one suspension, and no earlier call suspends. */
  predicate EndsSuspended(acts: seq<Action>)
  {
    |acts| > 0 && Suspends(acts[|acts| - 1]) &&
    forall i :: 0 <= i < |acts| - 1 ==> !Suspends(acts[i])
  }

  /** A run of calls that never hands control back (a process that spins, or one that terminates). */
  predicate NeverSuspends(acts: seq<Action>)
  {
    forall i :: 0 <= i < |acts| ==> !Suspends(acts[i])
  }
}
