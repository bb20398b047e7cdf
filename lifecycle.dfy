/**
 * The lifecycle calls of `License` whose only observable behaviour is which
 * other lifecycle call they make: `reinit` calls `init` with `forceRecreate`
 * set. `init` itself only logs, and logging is not modelled.
 */
module Lifecycle {
  /** A call to `init`, recorded with the argument it received. */
  datatype Call = Init(forceRecreate: bool)

  /** The record of one `init(forceRecreate = false)` invocation. */
  function InitInvocation(forceRecreate: bool := false): (call: Call)
    ensures call.forceRecreate == forceRecreate
  {
    Init(forceRecreate)
  }

  /** The `init` calls that `reinit` makes: one `init(true)`. */
  function ReinitCalls(): (calls: seq<Call>)
    ensures |calls| == 1
    ensures forall i :: 0 <= i < |calls| ==> calls[i].forceRecreate
  {
    [InitInvocation(true)]
  }

  /** `reinit` is not the same as a plain `init()`: it forces recreation, the default does not. */
  lemma ReinitDiffersFromDefaultInit()
    ensures ReinitCalls() != [InitInvocation()]
    ensures !InitInvocation().forceRecreate
  {
  }
}
