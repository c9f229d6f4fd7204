/** The per-transport request buffer (`transportBuffer`) and the transport it retries through. */
module Buffers {
  import opened Http
  import opened Promises

  /** A suspended request: the config to re-issue and the deferred its caller is waiting on. */
  datatype Entry = Entry(config: Config, deferred: Handle)

  /** A request re-issued through a transport, with the deferred its callbacks settle. */
  datatype Issued = Issued(config: Config, deferred: Handle)

  /** The requests a drain re-issues, in buffer order: one per entry, config passed through
      the updater, same deferred. */
  function RetryCalls(updater: Updater, entries: seq<Entry>): (calls: seq<Issued>)
    ensures |calls| == |entries|
  {
    if entries == [] then []
    else
      var last := entries[|entries| - 1];
      RetryCalls(updater, entries[..|entries| - 1]) + [Issued(updater(last.config), last.deferred)]
  }

  /** The i-th re-issued request is the updated i-th buffered entry: order is preserved. */
  lemma {:induction false} RetryCallsAt(updater: Updater, entries: seq<Entry>, i: nat)
    requires i < |entries|
    ensures RetryCalls(updater, entries)[i] == Issued(updater(entries[i].config), entries[i].deferred)
  {
    if i < |entries| - 1 {
      RetryCallsAt(updater, entries[..|entries| - 1], i);
    }
  }

  /** The deferreds held by a list of entries. */
  function Handles(entries: seq<Entry>): set<Handle> {
    set i | 0 <= i < |entries| :: entries[i].deferred
  }

  predicate HandlesExist(states: seq<Settlement>, entries: seq<Entry>) {
    forall i :: 0 <= i < |entries| ==> entries[i].deferred < |states|
  }

  /** The deferred states after rejecting every entry's deferred, in buffer order, with `reason`. */
  function RejectEach(states: seq<Settlement>, entries: seq<Entry>, reason: string): (r: seq<Settlement>)
    requires HandlesExist(states, entries)
    ensures |r| == |states| && SettledKept(states, r)
  {
    if entries == [] then states
    else
      Settle(RejectEach(states, entries[..|entries| - 1], reason),
             entries[|entries| - 1].deferred, Rejected(Cancelled(reason)))
  }

  /** Rejecting every entry touches exactly the pending deferreds of the entries, and gives
      each of them the cancellation reason. */
  lemma {:induction false} RejectEachAt(states: seq<Settlement>, entries: seq<Entry>, reason: string, h: Handle)
    requires HandlesExist(states, entries)
    requires h < |states|
    ensures RejectEach(states, entries, reason)[h] ==
            if states[h].Pending? && h in Handles(entries) then Rejected(Cancelled(reason)) else states[h]
  {
    if entries != [] {
      var prefix := entries[..|entries| - 1];
      var last := entries[|entries| - 1];
      assert HandlesExist(states, prefix);
      RejectEachAt(states, prefix, reason, h);
      assert Handles(entries) == Handles(prefix) + {last.deferred} by {
        forall g | g in Handles(entries) ensures g in Handles(prefix) + {last.deferred} {
          var i :| 0 <= i < |entries| && entries[i].deferred == g;
          if i < |entries| - 1 { assert prefix[i] == entries[i]; }
        }
        forall g | g in Handles(prefix) ensures g in Handles(entries) {
          var i :| 0 <= i < |prefix| && prefix[i].deferred == g;
          assert entries[i] == prefix[i];
        }
      }
    }
  }

  /** The terminal state a retry's outcome gives the original deferred. */
  function SettlementOf(outcome: Outcome): (s: Settlement)
    ensures !s.Pending?
    ensures outcome.Success? <==> s.Resolved?
  {
    match outcome
    case Success(response) => Resolved(response)
    case Failure(response) => Rejected(Failed(response))
  }
}
