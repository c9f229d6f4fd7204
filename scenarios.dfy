/** Clients that use only the contracts of `AuthService`: each walks through one episode
    of suspension and recovery and checks what callers and transports observe. */
module Scenarios {
  import opened Http
  import opened Promises
  import opened Buffers
  import opened Ownership
  import opened Auth

  function AddToken(config: Config): Config {
    config.(headers := config.headers["Authorization" := "Bearer fresh"])
  }

  /** Two requests to "api" fail with 401; the login is confirmed with a token-adding
      updater; both retries succeed, and both original callers get their responses. */
  method ReplayAfterLogin() {
    var c1, c2 := Config("/r1", map[], false), Config("/r2", map[], false);
    var s := BufferTwoFailures(c1, c2);
    ConfirmWithToken(s, c1, c2);
    var ok1, ok2 := Response(AddToken(c1), 200, "one"), Response(AddToken(c2), 200, "two");
    SettleBoth(s, AddToken(c1), AddToken(c2), ok1, ok2);
    assert s.deferreds == [Resolved(ok1), Resolved(ok2)];
    assert s.broadcasts == [AuthLoginRequired(Response(c1, 401, "")), AuthLoginRequired(Response(c2, 401, "")),
                            AuthLoginConfirmed(None)];
  }

  /** The two failures are buffered in arrival order, each with a fresh pending deferred. */
  method BufferTwoFailures(c1: Config, c2: Config) returns (s: AuthService)
    requires !c1.ignoreAuthModule && !c2.ignoreAuthModule
    ensures fresh(s) && s.Valid()
    ensures s.failingServiceName == Some("api")
    ensures "api" in s.buffers && s.buffers["api"] == [Entry(c1, 0), Entry(c2, 1)]
    ensures "api" in s.retries && s.retries["api"] == Log([], {})
    ensures s.deferreds == [Pending, Pending]
    ensures s.broadcasts == [AuthLoginRequired(Response(c1, 401, "")), AuthLoginRequired(Response(c2, 401, ""))]
  {
    s := new AuthService({"api"});
    var p1 := s.ResponseError("api", Response(c1, 401, ""));
    var p2 := s.ResponseError("api", Response(c2, 401, ""));
    assert p1 == Suspended(0) && p2 == Suspended(1);
  }

  /** Confirming re-issues both buffered requests, in order, with the token added. */
  method ConfirmWithToken(s: AuthService, c1: Config, c2: Config)
    requires s.Valid() && s.failingServiceName == Some("api")
    requires "api" in s.buffers && s.buffers["api"] == [Entry(c1, 0), Entry(c2, 1)]
    requires "api" in s.retries && s.retries["api"] == Log([], {})
    modifies s
    ensures s.Valid() && "api" in s.buffers && s.buffers["api"] == []
    ensures "api" in s.retries && s.retries["api"] == Log([Issued(AddToken(c1), 0), Issued(AddToken(c2), 1)], {})
    ensures s.deferreds == old(s.deferreds)
    ensures s.broadcasts == old(s.broadcasts) + [AuthLoginConfirmed(None)]
  {
    var entries := [Entry(c1, 0), Entry(c2, 1)];
    var thrown := s.LoginConfirmed(None, Some(AddToken));
    assert thrown == None;
    RetryCallsAt(AddToken, entries, 0);
    RetryCallsAt(AddToken, entries, 1);
    assert RetryCalls(AddToken, entries) == [Issued(AddToken(c1), 0), Issued(AddToken(c2), 1)];
  }

  /** Each retry's success resolves the original caller's deferred with that response. */
  method SettleBoth(s: AuthService, c1: Config, c2: Config, ok1: Response, ok2: Response)
    requires s.Valid() && "api" in s.retries
    requires s.retries["api"] == Log([Issued(c1, 0), Issued(c2, 1)], {})
    requires s.deferreds == [Pending, Pending]
    requires ok1.config == c1 && ok2.config == c2
    modifies s
    ensures s.deferreds == [Resolved(ok1), Resolved(ok2)]
    ensures s.broadcasts == old(s.broadcasts)
  {
    s.SettleRetry("api", 0, Success(ok1));
    assert s.deferreds == [Resolved(ok1), Pending];
    s.SettleRetry("api", 1, Success(ok2));
  }

  /** A retried request that fails with 401 again is caught in a fresh buffer, not in the
      one that was just drained; its original caller keeps waiting. */
  method RetryFailsAgain() {
    var c := Config("/r", map[], false);
    var s := FailOnceAndConfirm(c);
    var again := s.ResponseError("api", Response(c, 401, ""));
    assert again == Suspended(1);
    assert s.buffers["api"] == [Entry(c, 1)];
    assert s.retries["api"].issued == [Issued(c, 0)];
    assert s.deferreds == [Pending, Pending];
  }

  /** A retry that is refused with 403 is announced as forbidden by the interceptor on its
      transport, and its original caller is rejected with that response. */
  method RetryForbidden() {
    var c := Config("/r", map[], false);
    var s := FailOnceAndConfirm(c);
    var refused := Response(c, 403, "");
    s.SettleRetry("api", 0, Failure(refused));
    assert s.deferreds == [Rejected(Failed(refused))];
    assert s.broadcasts[|s.broadcasts| - 1] == AuthForbidden(refused);
    assert s.buffers["api"] == [];
  }

  /** One request fails with 401 and is re-issued unchanged when the login is confirmed. */
  method FailOnceAndConfirm(c: Config) returns (s: AuthService)
    requires !c.ignoreAuthModule
    ensures fresh(s) && s.Valid() && s.serviceNames == {"api"}
    ensures s.failingServiceName == Some("api")
    ensures "api" in s.buffers && s.buffers["api"] == []
    ensures "api" in s.retries && s.retries["api"] == Log([Issued(c, 0)], {})
    ensures s.deferreds == [Pending]
  {
    s := new AuthService({"api"});
    var p := s.ResponseError("api", Response(c, 401, ""));
    var thrown := s.LoginConfirmed(None, None);
    RetryCallsAt(Identity, [Entry(c, 0)], 0);
  }

  /** Cancelling without a reason, or with an empty one, empties the buffer and abandons
      the waiting callers: their deferreds stay pending. */
  method CancelWithoutReason() {
    var s := new AuthService({"api"});
    var c := Config("/r", map[], false);
    var p := s.ResponseError("api", Response(c, 401, ""));
    var thrown := s.LoginCancelled(Some("user"), None);
    assert s.buffers["api"] == [] && s.deferreds == [Pending];

    p := s.ResponseError("api", Response(c, 401, ""));
    thrown := s.LoginCancelled(None, Some(""));
    assert s.buffers["api"] == [] && s.deferreds == [Pending, Pending];
  }

  /** Cancelling with a reason rejects every waiting caller with exactly that reason. */
  method CancelWithReason() {
    var s := new AuthService({"api"});
    var c := Config("/r", map[], false);
    var p := s.ResponseError("api", Response(c, 401, ""));
    p := s.ResponseError("api", Response(c, 401, ""));
    var thrown := s.LoginCancelled(None, Some("denied"));
    assert s.buffers["api"] == [];
    assert s.deferreds == [Rejected(Cancelled("denied")), Rejected(Cancelled("denied"))];
  }

  /** Opted-out requests are never intercepted; 403 is announced and passed on; confirming
      before any failure throws. */
  method PassThroughAndMisuse() {
    var s := new AuthService({"api"});
    var thrown := s.LoginConfirmed(None, None);
    assert thrown == Some(NoFailingService);

    var exempt := Response(Config("/login", map[], true), 401, "");
    var r := s.ResponseError("api", exempt);
    assert r == Rejection(exempt) && s.buffers == map[] && s.failingServiceName == None;

    var denied := Response(Config("/admin", map[], false), 403, "");
    r := s.ResponseError("api", denied);
    assert r == Rejection(denied) && s.buffers["api"] == [];
    assert s.broadcasts == [AuthForbidden(denied)];

    var broken := Response(Config("/x", map[], false), 500, "");
    r := s.ResponseError("api", broken);
    assert r == Rejection(broken) && s.broadcasts == [AuthForbidden(denied)];
    assert s.failingServiceName == Some("api");
  }

  /** Only the most recently failing service is drained: a cancellation after a failure on
      "billing" leaves the request buffered for "api" untouched. */
  method OnlyTheFailingServiceIsDrained() {
    var s := new AuthService({"api", "billing"});
    var a := Config("/a", map[], false);
    var b := Config("/b", map[], false);
    var pa := s.ResponseError("api", Response(a, 401, ""));
    var pb := s.ResponseError("billing", Response(b, 401, ""));
    var thrown := s.LoginCancelled(None, Some("no"));
    assert s.buffers["billing"] == [];
    assert s.buffers["api"] == [Entry(a, 0)];
    assert s.deferreds[0] == Pending && s.deferreds[1] == Rejected(Cancelled("no"));
  }
}
