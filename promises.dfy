/** Deferred results (the `$q` deferreds): a ledger of handles, each of which goes
    from Pending to one terminal state and never changes again. */
module Promises {
  import opened Http

  type Handle = nat

  /** Why a deferred was rejected: a caller-supplied cancellation reason, or the failed
      response of its retry. */
  datatype Reason = Cancelled(reason: string) | Failed(response: Response)

  datatype Settlement = Pending | Resolved(response: Response) | Rejected(reason: Reason)

  /** No handle that was settled in `before` is changed in `after`, and no handle is lost. */
  predicate SettledKept(before: seq<Settlement>, after: seq<Settlement>) {
    |before| <= |after| &&
    forall h :: 0 <= h < |before| && !before[h].Pending? ==> after[h] == before[h]
  }

  /** Resolving or rejecting a deferred: only a pending one takes the new state; settling a
      deferred that is already settled has no effect. */
  function Settle(states: seq<Settlement>, h: Handle, s: Settlement): (r: seq<Settlement>)
    requires h < |states|
    requires !s.Pending?
    ensures |r| == |states| && SettledKept(states, r)
    ensures r[h] == if states[h].Pending? then s else states[h]
    ensures forall g :: 0 <= g < |states| && g != h ==> r[g] == states[g]
  {
    if states[h].Pending? then states[h := s] else states
  }
}
