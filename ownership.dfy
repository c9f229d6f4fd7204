/** Who holds each deferred that is still waiting to be settled, stated over plain values:
    a snapshot of every buffer and of every transport's retry log. Each operation of the
    service preserves `Owned`; from it follow "no deferred is held twice" and "a held
    deferred is still pending", hence "no deferred is settled twice". */
module Ownership {
  import opened Http
  import opened Promises
  import opened Buffers

  /** The name a transport service is registered (and injected) under. */
  type ServiceName = string

  /** A transport's retry log: the re-issued requests and which of them have been answered. */
  datatype Log = Log(issued: seq<Issued>, answered: set<nat>)

  /** Where a pending deferred is held: at an index of a service's buffer, or attached to
      the callbacks of the request at an index of a service's retry log. */
  datatype Owner = Buffered(service: ServiceName, index: nat) | InFlight(service: ServiceName, index: nat)

  function BufferOf(buffers: map<ServiceName, seq<Entry>>, n: ServiceName): seq<Entry> {
    if n in buffers then buffers[n] else []
  }

  predicate Owned(buffers: map<ServiceName, seq<Entry>>, logs: map<ServiceName, Log>,
                  owner: map<Handle, Owner>, states: seq<Settlement>)
  {
    (forall n, i :: n in buffers && 0 <= i < |buffers[n]| ==>
       buffers[n][i].deferred in owner && owner[buffers[n][i].deferred] == Buffered(n, i)) &&
    (forall n, k :: n in logs && 0 <= k < |logs[n].issued| && k !in logs[n].answered ==>
       logs[n].issued[k].deferred in owner && owner[logs[n].issued[k].deferred] == InFlight(n, k)) &&
    (forall n, k :: n in logs && k in logs[n].answered ==> k < |logs[n].issued|) &&
    (forall h :: h in owner ==> h < |states| && states[h] == Pending)
  }

  /** Nothing is held before any request has failed. */
  lemma InitiallyOwned(logs: map<ServiceName, Log>, states: seq<Settlement>)
    requires forall n :: n in logs ==> logs[n] == Log([], {})
    ensures Owned(map[], logs, map[], states)
  {
  }

  /** Two buffered entries never share a deferred, and no retry in flight holds a buffered one.
      A corollary of `Owned` stated for the reader; no proof relies on it. */
  lemma BufferedUnique(buffers: map<ServiceName, seq<Entry>>, logs: map<ServiceName, Log>,
                       owner: map<Handle, Owner>, states: seq<Settlement>, n: ServiceName, i: nat)
    requires Owned(buffers, logs, owner, states)
    requires n in buffers && i < |buffers[n]|
    ensures states[buffers[n][i].deferred] == Pending
    ensures forall m, j :: m in buffers && 0 <= j < |buffers[m]| && (m != n || j != i) ==>
              buffers[m][j].deferred != buffers[n][i].deferred
    ensures forall t, k :: t in logs && 0 <= k < |logs[t].issued| && k !in logs[t].answered ==>
              logs[t].issued[k].deferred != buffers[n][i].deferred
  {
  }

  /** `append` of a fresh deferred keeps the invariant: the new deferred is held at the tail. */
  lemma AppendKeepsOwned(buffers: map<ServiceName, seq<Entry>>, logs: map<ServiceName, Log>,
                         owner: map<Handle, Owner>, states: seq<Settlement>,
                         n: ServiceName, config: Config)
    requires Owned(buffers, logs, owner, states)
    ensures Owned(buffers[n := BufferOf(buffers, n) + [Entry(config, |states|)]], logs,
                  owner[|states| := Buffered(n, |BufferOf(buffers, n)|)], states + [Pending])
  {
  }

  /** `retryAll` of service f's buffer keeps the invariant: each entry's deferred moves to the
      retry issued for it. */
  lemma {:induction false} DrainKeepsOwned(buffers: map<ServiceName, seq<Entry>>, logs: map<ServiceName, Log>,
                                            owner: map<Handle, Owner>, states: seq<Settlement>,
                                            f: ServiceName, updater: Updater)
    requires Owned(buffers, logs, owner, states)
    requires f in logs
    ensures Owned(buffers[f := []],
                  logs[f := Log(logs[f].issued + RetryCalls(updater, BufferOf(buffers, f)), logs[f].answered)],
                  map h | h in owner :: Moved(owner[h], f, |logs[f].issued|), states)
  {
    var entries := BufferOf(buffers, f);
    var base := |logs[f].issued|;
    var log' := Log(logs[f].issued + RetryCalls(updater, entries), logs[f].answered);
    var logs' := logs[f := log'];
    var owner' := map h | h in owner :: Moved(owner[h], f, base);
    forall n, k | n in logs' && 0 <= k < |logs'[n].issued| && k !in logs'[n].answered
      ensures logs'[n].issued[k].deferred in owner' && owner'[logs'[n].issued[k].deferred] == InFlight(n, k)
    {
      if n == f && k >= base {
        RetryCallsAt(updater, entries, k - base);
        assert f in buffers;
        assert log'.issued[k].deferred == buffers[f][k - base].deferred;
      }
    }
  }

  /** The owner of a deferred once service f's buffer has been drained into a retry log that
      held `base` requests before. */
  function Moved(o: Owner, f: ServiceName, base: nat): Owner
  {
    match o
    case Buffered(n, i) => if n == f then InFlight(n, base + i) else o
    case InFlight(_, _) => o
  }

  /** The deferreds still held once service f's buffer is emptied without retrying it. */
  function Released(owner: map<Handle, Owner>, f: ServiceName): map<Handle, Owner>
  {
    map h | h in owner && !(owner[h].Buffered? && owner[h].service == f) :: owner[h]
  }

  /** `rejectAll` of service f's buffer keeps the invariant, with or without a reason: its
      deferreds were all pending and are released; with a truthy reason they are now rejected. */
  lemma {:induction false} CancelKeepsOwned(buffers: map<ServiceName, seq<Entry>>, logs: map<ServiceName, Log>,
                                             owner: map<Handle, Owner>, states: seq<Settlement>,
                                             f: ServiceName, reason: Option<string>)
    requires Owned(buffers, logs, owner, states)
    ensures HandlesExist(states, BufferOf(buffers, f))
    ensures forall i :: 0 <= i < |BufferOf(buffers, f)| ==> states[BufferOf(buffers, f)[i].deferred] == Pending
    ensures Owned(buffers[f := []], logs, Released(owner, f),
                  if Truthy(reason) then RejectEach(states, BufferOf(buffers, f), reason.value) else states)
  {
    var entries := BufferOf(buffers, f);
    assert HandlesExist(states, entries) by {
      forall i | 0 <= i < |entries| ensures entries[i].deferred < |states| {
        assert f in buffers && buffers[f][i] == entries[i];
      }
    }
    if Truthy(reason) {
      var states' := RejectEach(states, entries, reason.value);
      forall h | h in Released(owner, f) ensures h < |states'| && states'[h] == Pending {
        RejectEachAt(states, entries, reason.value, h);
      }
    }
  }

  /** The outcome of an in-flight retry keeps the invariant: its deferred was pending, is
      settled now and is released. */
  lemma DeliverKeepsOwned(buffers: map<ServiceName, seq<Entry>>, logs: map<ServiceName, Log>,
                          owner: map<Handle, Owner>, states: seq<Settlement>,
                          t: ServiceName, k: nat, s: Settlement)
    requires Owned(buffers, logs, owner, states)
    requires t in logs && k < |logs[t].issued| && k !in logs[t].answered
    requires !s.Pending?
    ensures logs[t].issued[k].deferred < |states|
    ensures states[logs[t].issued[k].deferred] == Pending
    ensures Owned(buffers, logs[t := Log(logs[t].issued, logs[t].answered + {k})],
                  owner - {logs[t].issued[k].deferred},
                  Settle(states, logs[t].issued[k].deferred, s))
  {
  }
}
