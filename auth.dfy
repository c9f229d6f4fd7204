/** The authentication service: the closure state shared by the `responseError`
    interceptors of every registered transport, the per-transport buffers, and the
    `loginConfirmed` / `loginCancelled` entry points. */
module Auth {
  import opened Http
  import opened Promises
  import opened Buffers
  import opened Ownership

  /** The events broadcast on the root scope, with their payloads. */
  datatype Event =
    | AuthLoginRequired(rejection: Response)   // event:auth-loginRequired
    | AuthForbidden(rejection: Response)       // event:auth-forbidden
    | AuthLoginConfirmed(data: Option<string>) // event:auth-loginConfirmed
    | AuthLoginCancelled(data: Option<string>) // event:auth-loginCancelled

  /** What the interceptor hands back to the caller: the promise of a fresh deferred, or
      the rejection passed on (`$q.reject(rejection)`). */
  datatype Reply = Suspended(promise: Handle) | Rejection(rejection: Response)

  /** `buffers[failingServiceName]` is undefined before any failure, so the coordinator
      call throws. */
  datatype Error = NoFailingService

  /** The updater `loginConfirmed` uses: the caller's, or the identity. */
  function UpdaterOrIdentity(configUpdater: Option<Updater>): (u: Updater)
    ensures configUpdater.None? ==> forall c :: u(c) == c
    ensures configUpdater.Some? ==> u == configUpdater.value
  {
    if configUpdater.Some? then configUpdater.value else Identity
  }

  class AuthService {
    /** The names of the registered transport services; an interceptor runs on each. */
    const serviceNames: set<ServiceName>
    /** `$transportsMap`: the services whose transport has been looked up so far. */
    var transports: set<ServiceName>
    /** `buffers`: the suspended requests of each service that has failed at least once,
        oldest first. */
    var buffers: map<ServiceName, seq<Entry>>
    /** `failingServiceName`: the service of the most recent intercepted failure. */
    var failingServiceName: Option<ServiceName>
    /** The state of every deferred created so far (`$q`), indexed by handle. */
    var deferreds: seq<Settlement>
    /** What each transport has been asked to re-issue, and which outcomes have arrived. */
    var retries: map<ServiceName, Log>
    /** Everything broadcast on the root scope, oldest first. */
    var broadcasts: seq<Event>
    /** Who holds each deferred that is still waiting to be settled by this module. */
    ghost var owner: map<Handle, Owner>

    ghost predicate Valid()
      reads this
    {
      buffers.Keys <= transports <= serviceNames &&
      retries.Keys == serviceNames &&
      (failingServiceName.Some? ==> failingServiceName.value in buffers) &&
      Owned(buffers, retries, owner, deferreds)
    }

    /** The state after registration, before any request has failed. */
    constructor (serviceNames: set<ServiceName>)
      ensures Valid()
      ensures this.serviceNames == serviceNames
      ensures transports == {} && buffers == map[] && failingServiceName == None
      ensures deferreds == [] && broadcasts == []
      ensures retries == map n | n in serviceNames :: Log([], {})
    {
      this.serviceNames := serviceNames;
      transports := {};
      buffers := map[];
      failingServiceName := None;
      deferreds := [];
      retries := map n | n in serviceNames :: Log([], {});
      broadcasts := [];
      owner := map[];
      new;
      InitiallyOwned(retries, deferreds);
    }

    /** `$q.defer()`: a fresh, pending deferred. */
    method Defer() returns (h: Handle)
      modifies this
      ensures h == |old(deferreds)| && deferreds == old(deferreds) + [Pending]
      ensures transports == old(transports) && buffers == old(buffers) && retries == old(retries)
      ensures failingServiceName == old(failingServiceName) && broadcasts == old(broadcasts)
      ensures owner == old(owner)
    {
      h := |deferreds|;
      deferreds := deferreds + [Pending];
    }

    /** `append(config, deferred)` on a service's buffer: one entry at the tail. */
    method Append(serviceName: ServiceName, config: Config, deferred: Handle)
      requires serviceName in buffers
      modifies this
      ensures buffers == old(buffers)[serviceName := old(buffers)[serviceName] + [Entry(config, deferred)]]
      ensures transports == old(transports) && deferreds == old(deferreds) && retries == old(retries)
      ensures failingServiceName == old(failingServiceName) && broadcasts == old(broadcasts)
      ensures owner == old(owner)
    {
      buffers := buffers[serviceName := buffers[serviceName] + [Entry(config, deferred)]];
    }

    /** `retryHttpRequest(config, deferred)`: re-issue one request through the service's
        transport and attach the callbacks that will settle `deferred`. */
    method RetryHttpRequest(serviceName: ServiceName, config: Config, deferred: Handle)
      requires serviceName in retries
      modifies this
      ensures retries == old(retries)[serviceName := Log(old(retries)[serviceName].issued + [Issued(config, deferred)],
                                                        old(retries)[serviceName].answered)]
      ensures transports == old(transports) && buffers == old(buffers) && deferreds == old(deferreds)
      ensures failingServiceName == old(failingServiceName) && broadcasts == old(broadcasts)
      ensures owner == old(owner)
    {
      var log := retries[serviceName];
      retries := retries[serviceName := Log(log.issued + [Issued(config, deferred)], log.answered)];
    }

    /** `retryAll(updater)` on a service's buffer: re-issue `updater(config)` for every entry,
        in buffer order, through that service's transport; each original deferred stays
        attached to its retry. The buffer is empty afterwards. */
    method RetryAll(serviceName: ServiceName, updater: Updater)
      requires serviceName in buffers && serviceName in retries
      modifies this
      ensures buffers == old(buffers)[serviceName := []]
      ensures retries == old(retries)[serviceName := Log(old(retries)[serviceName].issued + RetryCalls(updater, old(buffers)[serviceName]),
                                                        old(retries)[serviceName].answered)]
      ensures transports == old(transports) && deferreds == old(deferreds)
      ensures failingServiceName == old(failingServiceName) && broadcasts == old(broadcasts)
      ensures owner == old(owner)
    {
      var buffer := buffers[serviceName];
      ghost var log := retries[serviceName];
      assert buffer[..0] == [] && log.issued + [] == log.issued;
      var i := 0;
      while i < |buffer|
        invariant 0 <= i <= |buffer|
        invariant buffers == old(buffers) && serviceName in retries
        invariant retries == old(retries)[serviceName := Log(old(retries)[serviceName].issued + RetryCalls(updater, buffer[..i]),
                                                            old(retries)[serviceName].answered)]
        invariant transports == old(transports) && deferreds == old(deferreds)
        invariant failingServiceName == old(failingServiceName) && broadcasts == old(broadcasts)
        invariant owner == old(owner)
      {
        assert buffer[..i + 1][..i] == buffer[..i];
        RetryHttpRequest(serviceName, updater(buffer[i].config), buffer[i].deferred);
        assert log.issued + RetryCalls(updater, buffer[..i + 1]) ==
               log.issued + RetryCalls(updater, buffer[..i]) + [Issued(updater(buffer[i].config), buffer[i].deferred)];
        i := i + 1;
      }
      assert buffer[..i] == buffer;
      buffers := buffers[serviceName := []];
    }

    /** `rejectAll(reason)` on a service's buffer: with a truthy reason every buffered deferred
        is rejected with it, in buffer order; otherwise the entries are abandoned and no
        deferred changes. The buffer is empty either way. */
    method RejectAll(serviceName: ServiceName, reason: Option<string>)
      requires serviceName in buffers && HandlesExist(deferreds, buffers[serviceName])
      modifies this
      ensures buffers == old(buffers)[serviceName := []]
      ensures deferreds == if Truthy(reason) then RejectEach(old(deferreds), old(buffers)[serviceName], reason.value)
                           else old(deferreds)
      ensures transports == old(transports) && retries == old(retries)
      ensures failingServiceName == old(failingServiceName) && broadcasts == old(broadcasts)
      ensures owner == old(owner)
    {
      var buffer := buffers[serviceName];
      if Truthy(reason) {
        var i := 0;
        while i < |buffer|
          invariant 0 <= i <= |buffer|
          invariant buffers == old(buffers)
          invariant HandlesExist(old(deferreds), buffer[..i])
          invariant deferreds == RejectEach(old(deferreds), buffer[..i], reason.value)
          invariant transports == old(transports) && retries == old(retries)
          invariant failingServiceName == old(failingServiceName) && broadcasts == old(broadcasts)
          invariant owner == old(owner)
        {
          assert buffer[..i + 1][..i] == buffer[..i];
          deferreds := Settle(deferreds, buffer[i].deferred, Rejected(Cancelled(reason.value)));
          i := i + 1;
        }
        assert buffer[..i] == buffer;
      }
      buffers := buffers[serviceName := []];
    }

    /** `responseError(rejection)` of the interceptor installed on `serviceName`'s transport. */
    method ResponseError(serviceName: ServiceName, rejection: Response) returns (reply: Reply)
      requires Valid()
      requires serviceName in serviceNames
      modifies this
      ensures Valid()
      ensures retries == old(retries)
      // an opted-out request is passed on untouched, and nothing changes
      ensures rejection.config.ignoreAuthModule ==>
        reply == Rejection(rejection) &&
        transports == old(transports) && buffers == old(buffers) && deferreds == old(deferreds) &&
        failingServiceName == old(failingServiceName) && broadcasts == old(broadcasts)
      // any other failure records the service and looks up its transport and buffer once
      ensures !rejection.config.ignoreAuthModule ==>
        failingServiceName == Some(serviceName) &&
        transports == old(transports) + {serviceName} &&
        buffers.Keys == old(buffers).Keys + {serviceName}
      // 401: suspend the request behind a fresh deferred and ask for a login
      ensures !rejection.config.ignoreAuthModule && rejection.status == 401 ==>
        reply == Suspended(|old(deferreds)|) &&
        deferreds == old(deferreds) + [Pending] &&
        buffers == old(buffers)[serviceName := BufferOf(old(buffers), serviceName) + [Entry(rejection.config, reply.promise)]] &&
        broadcasts == old(broadcasts) + [AuthLoginRequired(rejection)]
      // 403: announce it and pass the rejection on
      ensures !rejection.config.ignoreAuthModule && rejection.status == 403 ==>
        reply == Rejection(rejection) &&
        deferreds == old(deferreds) &&
        buffers == old(buffers)[serviceName := BufferOf(old(buffers), serviceName)] &&
        broadcasts == old(broadcasts) + [AuthForbidden(rejection)]
      // any other status: pass the rejection on
      ensures !rejection.config.ignoreAuthModule && rejection.status != 401 && rejection.status != 403 ==>
        reply == Rejection(rejection) &&
        deferreds == old(deferreds) &&
        buffers == old(buffers)[serviceName := BufferOf(old(buffers), serviceName)] &&
        broadcasts == old(broadcasts)
    {
      if rejection.config.ignoreAuthModule {
        return Rejection(rejection);
      }
      Track(serviceName);
      if rejection.status == 401 {
        var h := Suspend(serviceName, rejection.config);
        broadcasts := broadcasts + [AuthLoginRequired(rejection)];
        return Suspended(h);
      } else if rejection.status == 403 {
        broadcasts := broadcasts + [AuthForbidden(rejection)];
      }
      return Rejection(rejection);
    }

    /** The bookkeeping every intercepted failure does: look the service's transport up and
        create its buffer, each only the first time, and record the service as failing. */
    method Track(serviceName: ServiceName)
      requires Valid()
      requires serviceName in serviceNames
      modifies this
      ensures Valid()
      ensures failingServiceName == Some(serviceName)
      ensures transports == old(transports) + {serviceName}
      ensures buffers == old(buffers)[serviceName := BufferOf(old(buffers), serviceName)]
      ensures deferreds == old(deferreds) && retries == old(retries) && broadcasts == old(broadcasts)
    {
      transports := transports + {serviceName};
      if serviceName !in buffers {
        buffers := buffers[serviceName := []];
      }
      failingServiceName := Some(serviceName);
    }

    /** Park a request behind a fresh deferred at the tail of the service's buffer. */
    method Suspend(serviceName: ServiceName, config: Config) returns (h: Handle)
      requires Valid()
      requires serviceName in buffers
      modifies this
      ensures Valid()
      ensures h == |old(deferreds)| && deferreds == old(deferreds) + [Pending]
      ensures buffers == old(buffers)[serviceName := old(buffers)[serviceName] + [Entry(config, h)]]
      ensures transports == old(transports) && failingServiceName == old(failingServiceName)
      ensures retries == old(retries) && broadcasts == old(broadcasts)
    {
      AppendKeepsOwned(buffers, retries, owner, deferreds, serviceName, config);
      h := Defer();
      Append(serviceName, config, h);
      owner := owner[h := Buffered(serviceName, |buffers[serviceName]| - 1)];
    }

    /** `loginConfirmed(data, configUpdater)`: retry every request buffered for the failing
        service, in order, through its transport, then announce the login. */
    method LoginConfirmed(data: Option<string>, configUpdater: Option<Updater>) returns (thrown: Option<Error>)
      requires Valid()
      modifies this
      ensures Valid()
      ensures transports == old(transports) && failingServiceName == old(failingServiceName)
      ensures deferreds == old(deferreds)
      ensures failingServiceName.None? ==>
        thrown == Some(NoFailingService) &&
        buffers == old(buffers) && retries == old(retries) && broadcasts == old(broadcasts)
      ensures failingServiceName.Some? ==>
        var f := failingServiceName.value;
        thrown == None &&
        buffers == old(buffers)[f := []] &&
        retries == old(retries)[f := Log(old(retries)[f].issued + RetryCalls(UpdaterOrIdentity(configUpdater), old(buffers)[f]),
                                         old(retries)[f].answered)] &&
        broadcasts == old(broadcasts) + [AuthLoginConfirmed(data)]
    {
      if failingServiceName.None? {
        return Some(NoFailingService);
      }
      var f := failingServiceName.value;
      var updater := UpdaterOrIdentity(configUpdater);
      DrainKeepsOwned(buffers, retries, owner, deferreds, f, updater);
      owner := map h | h in owner :: Moved(owner[h], f, |retries[f].issued|);
      RetryAll(f, updater);
      broadcasts := broadcasts + [AuthLoginConfirmed(data)];
      thrown := None;
    }

    /** `loginCancelled(data, reason)`: reject (truthy reason) or abandon every request
        buffered for the failing service, then announce the cancellation. */
    method LoginCancelled(data: Option<string>, reason: Option<string>) returns (thrown: Option<Error>)
      requires Valid()
      modifies this
      ensures Valid()
      ensures transports == old(transports) && failingServiceName == old(failingServiceName)
      ensures retries == old(retries)
      ensures failingServiceName.None? ==>
        thrown == Some(NoFailingService) &&
        buffers == old(buffers) && deferreds == old(deferreds) && broadcasts == old(broadcasts)
      ensures failingServiceName.Some? ==>
        var f := failingServiceName.value;
        thrown == None &&
        buffers == old(buffers)[f := []] &&
        deferreds == (if Truthy(reason) then RejectEach(old(deferreds), old(buffers)[f], reason.value)
                      else old(deferreds)) &&
        broadcasts == old(broadcasts) + [AuthLoginCancelled(data)]
      // each buffered deferred was pending; a truthy reason rejects it with that reason,
      // otherwise it is abandoned and stays pending; no other deferred changes
      ensures failingServiceName.Some? ==>
        var entries := old(buffers)[failingServiceName.value];
        |deferreds| == |old(deferreds)| &&
        (forall i :: 0 <= i < |entries| ==>
           entries[i].deferred < |deferreds| &&
           old(deferreds)[entries[i].deferred] == Pending &&
           deferreds[entries[i].deferred] == if Truthy(reason) then Rejected(Cancelled(reason.value)) else Pending) &&
        (forall h :: 0 <= h < |deferreds| && h !in Handles(entries) ==> deferreds[h] == old(deferreds)[h])
    {
      if failingServiceName.None? {
        return Some(NoFailingService);
      }
      var f := failingServiceName.value;
      ghost var entries, before := buffers[f], deferreds;
      CancelKeepsOwned(buffers, retries, owner, deferreds, f, reason);
      owner := Released(owner, f);
      RejectAll(f, reason);
      broadcasts := broadcasts + [AuthLoginCancelled(data)];
      if Truthy(reason) {
        forall h | 0 <= h < |before|
          ensures deferreds[h] ==
                  if before[h].Pending? && h in Handles(entries) then Rejected(Cancelled(reason.value)) else before[h]
        {
          RejectEachAt(before, entries, reason.value, h);
        }
      }
      forall i | 0 <= i < |entries| ensures entries[i].deferred in Handles(entries) { }
      thrown := None;
    }

    /** The callbacks attached by `retryHttpRequest` run: the k-th request re-issued through
        `serviceName`'s transport has produced `outcome`; success resolves the original
        deferred, failure rejects it with the new failure. A failure reaches the callback only
        after this module's own interceptor on that transport has seen it, so it records the
        failing service and announces a 403 first. A 401 that is not opted out never reaches
        the callback: the interceptor suspends it again (see `ResponseError`). */
    method SettleRetry(serviceName: ServiceName, k: nat, outcome: Outcome)
      requires Valid()
      requires serviceName in retries
      requires k < |retries[serviceName].issued| && k !in retries[serviceName].answered
      // the transport answers the request it was given, with that request's config
      requires outcome.response.config == retries[serviceName].issued[k].config
      requires outcome.Failure? ==> outcome.response.status != 401 || outcome.response.config.ignoreAuthModule
      modifies this
      ensures Valid()
      ensures retries == old(retries)[serviceName := Log(old(retries)[serviceName].issued, old(retries)[serviceName].answered + {k})]
      // the original deferred was still pending and takes the retry's own outcome
      ensures var h := old(retries)[serviceName].issued[k].deferred;
        h < |old(deferreds)| && old(deferreds)[h] == Pending &&
        deferreds == old(deferreds)[h := SettlementOf(outcome)]
      // a failure that is not opted out went through the interceptor's bookkeeping
      ensures outcome.Failure? && !outcome.response.config.ignoreAuthModule ==>
        failingServiceName == Some(serviceName) &&
        transports == old(transports) + {serviceName} &&
        buffers == old(buffers)[serviceName := BufferOf(old(buffers), serviceName)] &&
        broadcasts == old(broadcasts) + (if outcome.response.status == 403 then [AuthForbidden(outcome.response)] else [])
      // otherwise nothing but the deferred and the log changes
      ensures outcome.Success? || outcome.response.config.ignoreAuthModule ==>
        transports == old(transports) && buffers == old(buffers) &&
        failingServiceName == old(failingServiceName) && broadcasts == old(broadcasts)
    {
      if outcome.Failure? {
        var reply := ResponseError(serviceName, outcome.response);
      }
      var log := retries[serviceName];
      var h := log.issued[k].deferred;
      DeliverKeepsOwned(buffers, retries, owner, deferreds, serviceName, k, SettlementOf(outcome));
      deferreds := Settle(deferreds, h, SettlementOf(outcome));
      retries := retries[serviceName := Log(log.issued, log.answered + {k})];
      owner := owner - {h};
    }
  }
}
