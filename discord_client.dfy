/**
 * The outbound request coordinator of `lib/discord.ts` as a state machine.
 *
 * The four module-level maps become the fields of `Coordinator`; a promise
 * becomes a handle, numbered in the order the requests are issued. Every
 * `await` ends a step: the environment (the network, the timers and the
 * microtask queue) decides when the next step of a call runs and supplies
 * the clock and the response as parameters.
 *
 * A call goes through `Request` (the synchronous part of
 * `makeDiscordRequest`, which runs the first gate), then alternately
 * `Gate` and `Receive` until `Receive` says it is done; then `Settle`,
 * and after a success `EndDebounce` five seconds later. `Sweep` is the
 * timer that `Receive` schedules when it is done.
 */
module DiscordClient {
  import opened Common
  import opened RateLimit

  /** How long a successful request stays shared after it settles (line 175), in ms. */
  const DebounceDelay: real := 5000.0

  /** The request key and the rate-limit key: the authorization header, a space and a path. */
  function JoinKey(auth: string, path: string): (k: string)
    ensures StartsWith(k, auth + " ") && EndsWith(k, path)
    ensures |k| == |auth| + 1 + |path|
  {
    EndsWithAppend(auth + " ", path);
    assert (auth + " " + path)[..|auth + " "|] == auth + " ";
    auth + " " + path
  }

  /** Under one authorization header, distinct paths give distinct keys. */
  lemma JoinKeyInjective(auth: string, p: string, q: string)
    requires JoinKey(auth, p) == JoinKey(auth, q)
    ensures p == q
  {
    var n := |auth| + 1;
    assert p == JoinKey(auth, p)[n..];
    assert q == JoinKey(auth, q)[n..];
  }

  /** One chain of attempts of one request: what `makeDiscordRequestInner` is called with. */
  datatype Call = Call(handle: nat, requestKey: string, rateLimitKey: string,
                       auth: string, pathname: string, attempt: nat)

  /** The status and the rate-limit headers of a response, and the `retry_after` of its body. */
  datatype Response = Response(status: int, headers: Headers, retryAfter: real)

  /** How a request's promise settles. */
  datatype Outcome = Success | HttpError(status: int) | NetworkError

  /** What a call does after a response: sleep and call again, or settle. */
  datatype Step = Retry(delay: real, next: Call) | Done(outcome: Outcome)

  /** Lines 95-145: the retry, error and success paths after a response. */
  function AfterResponse(c: Call, resp: Response): (s: Step)
    ensures resp.status == 429 <==> s == Retry(RateLimitDelay(resp.retryAfter), c)
    ensures IsServerError(resp.status) && c.attempt + 1 < MaxAttempts <==>
              s == Retry(ServerErrorDelay(c.attempt), c.(attempt := c.attempt + 1))
    ensures s.Retry? ==> s.next.handle == c.handle && s.next.rateLimitKey == c.rateLimitKey
    ensures s == Done(Success) <==> IsOk(resp.status)
    ensures s == Done(HttpError(resp.status)) <==> s.Done? && !IsOk(resp.status)
    ensures s.Done? ==> !s.outcome.NetworkError?
  {
    match Classify(resp.status, c.attempt)
    case RetryRateLimited => Retry(RateLimitDelay(resp.retryAfter), c)
    case RetryServerError(next) => Retry(ServerErrorDelay(c.attempt), c.(attempt := next))
    case Fail => Done(HttpError(resp.status))
    case Succeed => Done(Success)
  }

  /** What `makeDiscordRequest` hands back: the pending request, or a new one after its first gate. */
  datatype Issued = Joined(handle: nat) | Started(call: Call, action: GateAction, gateId: Option<string>)

  class Coordinator {
    /** `headOfLineRequests`: rate-limit key to the last request issued under it. */
    var headOfLine: map<string, nat>
    /** `rateLimitBucketKeys`: rate-limit key to the server's bucket id. */
    var bucketKeys: map<string, string>
    /** `rateLimitBuckets`: bucket id to its reset time and remaining count. */
    var buckets: map<string, Bucket>
    /** `pendingRequests`: request key to the request in flight or in its debounce. */
    var pending: map<string, nat>
    /** The handle the next new request gets. */
    var nextHandle: nat

    /** Every registered request was issued before `nextHandle`. */
    predicate Valid()
      reads this
    {
      && (forall k :: k in headOfLine ==> headOfLine[k] < nextHandle)
      && (forall k :: k in pending ==> pending[k] < nextHandle)
    }

    constructor ()
      ensures Valid()
      ensures headOfLine == map[] && bucketKeys == map[] && buckets == map[] && pending == map[]
      ensures nextHandle == 0
    {
      headOfLine := map[];
      bucketKeys := map[];
      buckets := map[];
      pending := map[];
      nextHandle := 0;
    }

    /**
     * Lines 9-54 up to the first `await`: the bucket id in force for the
     * call, the gate's decision, and the reservation on a dispatch against
     * a known bucket. The gate is the intended one (`GateDecisionFor`).
     */
    method Gate(c: Call, now: int) returns (action: GateAction, gateId: Option<string>)
      requires Valid()
      modifies this
      ensures Valid()
      ensures gateId == Get(old(bucketKeys), c.rateLimitKey)
      ensures action == GateDecisionFor(KnownBucket(old(bucketKeys), old(buckets), c.rateLimitKey),
                                        Get(old(headOfLine), c.rateLimitKey), c.handle, now)
      ensures buckets == BucketsAfterGate(old(bucketKeys), old(buckets), c.rateLimitKey, action)
      ensures headOfLine == old(headOfLine) && bucketKeys == old(bucketKeys)
      ensures pending == old(pending) && nextHandle == old(nextHandle)
    {
      gateId := Get(bucketKeys, c.rateLimitKey);
      var known := KnownBucket(bucketKeys, buckets, c.rateLimitKey);
      action := GateDecisionFor(known, Get(headOfLine, c.rateLimitKey), c.handle, now);
      if action.Dispatch? && known.Some? {
        buckets := Reserve(buckets, bucketKeys[c.rateLimitKey]);
      }
    }

    /**
     * Lines 62-145 after the response arrived: the binding and the bucket
     * record are updated from the headers, then the status decides the
     * next step. The record is compared with the entry stored now
     * (`RecordHeaders`), the intended form of line 79.
     */
    method Receive(c: Call, gateId: Option<string>, resp: Response) returns (s: Step)
      requires Valid()
      modifies this
      ensures Valid()
      ensures bucketKeys == BindingsAfter(old(bucketKeys), c.rateLimitKey, gateId, resp.headers)
      ensures buckets == RecordHeaders(old(buckets), BucketIdAfter(gateId, resp.headers), resp.headers)
      ensures s == AfterResponse(c, resp)
      ensures headOfLine == old(headOfLine) && pending == old(pending) && nextHandle == old(nextHandle)
    {
      bucketKeys := BindingsAfter(bucketKeys, c.rateLimitKey, gateId, resp.headers);
      buckets := RecordHeaders(buckets, BucketIdAfter(gateId, resp.headers), resp.headers);
      s := AfterResponse(c, resp);
    }

    /**
     * Lines 150-165: a request whose key is pending joins the pending
     * request; otherwise a new request runs its first gate and is then
     * registered as pending and as its rate-limit key's head of line.
     */
    method Request(auth: string, pathname: string, rateLimitPath: string, now: int) returns (r: Issued)
      requires Valid()
      modifies this
      ensures Valid()
      ensures JoinKey(auth, pathname) in old(pending) ==>
                && r == Joined(old(pending)[JoinKey(auth, pathname)])
                && headOfLine == old(headOfLine) && bucketKeys == old(bucketKeys) && buckets == old(buckets)
                && pending == old(pending) && nextHandle == old(nextHandle)
      ensures JoinKey(auth, pathname) !in old(pending) ==>
                && r.Started?
                && r.call == Call(old(nextHandle), JoinKey(auth, pathname), JoinKey(auth, rateLimitPath),
                                  auth, pathname, 0)
                && r.gateId == Get(old(bucketKeys), r.call.rateLimitKey)
                && r.action == GateDecision(KnownBucket(old(bucketKeys), old(buckets), r.call.rateLimitKey),
                                            Get(old(headOfLine), r.call.rateLimitKey), now)
                && buckets == BucketsAfterGate(old(bucketKeys), old(buckets), r.call.rateLimitKey, r.action)
                && bucketKeys == old(bucketKeys)
                && pending == old(pending)[r.call.requestKey := r.call.handle]
                && headOfLine == old(headOfLine)[r.call.rateLimitKey := r.call.handle]
                && nextHandle == old(nextHandle) + 1
    {
      var requestKey := JoinKey(auth, pathname);
      if requestKey in pending {
        return Joined(pending[requestKey]);
      }
      var c := Call(nextHandle, requestKey, JoinKey(auth, rateLimitPath), auth, pathname, 0);
      var hol := Get(headOfLine, c.rateLimitKey);
      CorrectionOnlyAffectsRetries(KnownBucket(bucketKeys, buckets, c.rateLimitKey), hol, c.handle, now);
      var action, gateId := Gate(c, now);
      pending := pending[requestKey := c.handle];
      headOfLine := headOfLine[c.rateLimitKey := c.handle];
      nextHandle := nextHandle + 1;
      r := Started(c, action, gateId);
    }

    /**
     * Lines 167-178: once the request's promise settles, its rate-limit
     * key loses its head-of-line entry; a failure also ends the pending
     * entry at once, a success only after the debounce. Both deletions
     * are by key, whoever the entry belongs to by then.
     */
    method Settle(c: Call, outcome: Outcome) returns (debounce: Option<real>)
      requires Valid()
      modifies this
      ensures Valid()
      ensures debounce == if outcome == Success then Some(DebounceDelay) else None
      ensures headOfLine == old(headOfLine) - {c.rateLimitKey}
      ensures pending == if debounce.Some? then old(pending) else old(pending) - {c.requestKey}
      ensures bucketKeys == old(bucketKeys) && buckets == old(buckets) && nextHandle == old(nextHandle)
    {
      headOfLine := headOfLine - {c.rateLimitKey};
      if outcome == Success {
        debounce := Some(DebounceDelay);
      } else {
        debounce := None;
        pending := pending - {c.requestKey};
      }
    }

    /** Line 180, run `DebounceDelay` ms after `Settle` returned that delay for a success. */
    method EndDebounce(c: Call)
      requires Valid()
      modifies this
      ensures Valid()
      ensures pending == old(pending) - {c.requestKey}
      ensures headOfLine == old(headOfLine) && bucketKeys == old(bucketKeys) && buckets == old(buckets)
      ensures nextHandle == old(nextHandle)
    {
      pending := pending - {c.requestKey};
    }

    /**
     * Lines 118-136, the timer scheduled by a settling response: the
     * bindings to buckets whose reset time lies more than 30 minutes before
     * `now` are deleted; the bucket records themselves stay.
     */
    method Sweep(now: int)
      requires Valid()
      modifies this
      ensures Valid()
      ensures bucketKeys == LiveBindings(old(bucketKeys), buckets, now)
      ensures buckets == old(buckets) && headOfLine == old(headOfLine) && pending == old(pending)
      ensures nextHandle == old(nextHandle)
    {
      var expired := CollectExpired(buckets, now);
      var todo := bucketKeys.Keys;
      while todo != {}
        invariant todo <= old(bucketKeys).Keys
        invariant forall k :: k in bucketKeys <==> k in old(bucketKeys) && (k in todo || old(bucketKeys)[k] !in expired)
        invariant forall k :: k in bucketKeys ==> bucketKeys[k] == old(bucketKeys)[k]
        invariant buckets == old(buckets) && headOfLine == old(headOfLine) && pending == old(pending)
        invariant nextHandle == old(nextHandle)
        decreases |todo|
      {
        var k :| k in todo;
        if bucketKeys[k] in expired {
          bucketKeys := bucketKeys - {k};
        }
        todo := todo - {k};
      }
    }
  }

  /** Lines 122-128: the ids of the bucket records expired at `now`. */
  method CollectExpired(buckets: map<string, Bucket>, now: int) returns (expired: set<string>)
    ensures expired == ExpiredIds(buckets, now)
  {
    expired := {};
    var todo := buckets.Keys;
    while todo != {}
      invariant todo <= buckets.Keys
      invariant forall id :: id in expired <==> id in buckets && id !in todo && Expired(buckets[id], now)
      decreases |todo|
    {
      var id :| id in todo;
      if buckets[id].resetAt < (now - KeepExpiredFor) as real {
        expired := expired + {id};
      }
      todo := todo - {id};
    }
  }

  // ---------------------------------------------------------------------
  // Waiting on the head of line (lines 15-30)

  /**
   * As written, a retry gates against the head-of-line entry of its key,
   * which its own request set at line 165. A first request under a key
   * whose 502 carries no rate-limit headers is retried with no bucket known
   * and so waits on its own promise, which cannot settle before the wait
   * ends. The intended gate lets it through.
   */
  method SelfWaitScenario() returns (own: nat, asWritten: GateAction, corrected: GateAction)
    ensures asWritten == WaitForRequest(own)
    ensures corrected == Dispatch
  {
    var co := new Coordinator();
    var r := co.Request("Bot t", "/users/1", UserRateLimitPath, 0);
    var a := r.call;
    var s := co.Receive(a, r.gateId, Response(502, Headers(None, None, None), 0.0));
    own := a.handle;
    asWritten := GateDecision(KnownBucket(co.bucketKeys, co.buckets, a.rateLimitKey),
                              Get(co.headOfLine, a.rateLimitKey), 100);
    var retryGateId;
    corrected, retryGateId := co.Gate(s.next, 100);
  }

  /**
   * Two lookups under one rate-limit key: the second waits on the first
   * and takes over the head-of-line entry. As written, the first one's 502
   * retry then waits on the second, so each waits on the other. The
   * intended gate lets the retry of the earlier request through.
   */
  method WaitCycleScenario() returns (first: nat, second: nat, secondGate: GateAction,
                                      asWritten: GateAction, corrected: GateAction)
    ensures first != second
    ensures secondGate == WaitForRequest(first)
    ensures asWritten == WaitForRequest(second)
    ensures corrected == Dispatch
  {
    var co := new Coordinator();
    var r1 := co.Request("Bot t", "/users/1", UserRateLimitPath, 0);
    var r2 := co.Request("Bot t", "/users/2", UserRateLimitPath, 0);
    var a := r1.call;
    first, second, secondGate := a.handle, r2.call.handle, r2.action;
    var s := co.Receive(a, r1.gateId, Response(502, Headers(None, None, None), 0.0));
    asWritten := GateDecision(KnownBucket(co.bucketKeys, co.buckets, a.rateLimitKey),
                              Get(co.headOfLine, a.rateLimitKey), 100);
    var retryGateId;
    corrected, retryGateId := co.Gate(s.next, 100);
  }

  /**
   * No retry is needed either. A second lookup waits on the first and takes
   * over the head-of-line entry. The first succeeds without rate-limit
   * headers. Its settle callback (line 167) was registered before the
   * second began to wait, so the second gates again before line 170 runs:
   * as written it finds its own handle and waits on itself. The intended
   * gate lets it through.
   */
  method QueuedSelfWaitScenario() returns (first: nat, second: nat, secondGate: GateAction,
                                           asWritten: GateAction, corrected: GateAction)
    ensures first != second
    ensures secondGate == WaitForRequest(first)
    ensures asWritten == WaitForRequest(second)
    ensures corrected == Dispatch
  {
    var co := new Coordinator();
    var r1 := co.Request("Bot t", "/users/1", UserRateLimitPath, 0);
    var r2 := co.Request("Bot t", "/users/2", UserRateLimitPath, 0);
    var a, b := r1.call, r2.call;
    first, second, secondGate := a.handle, b.handle, r2.action;
    var s := co.Receive(a, r1.gateId, Response(200, Headers(None, None, None), 0.0));
    asWritten := GateDecision(KnownBucket(co.bucketKeys, co.buckets, b.rateLimitKey),
                              Get(co.headOfLine, b.rateLimitKey), 100);
    var secondGateId;
    corrected, secondGateId := co.Gate(b, 100);
  }

  // ---------------------------------------------------------------------
  // The 404 wrappers (lines 205-262)

  /** The authorization header of the application's own requests, for a given bot token. */
  function AppAuth(token: string): string {
    "Bot " + token
  }

  function UserPath(user: string): string {
    "/users/" + user
  }

  /** All user lookups share one rate-limit path. */
  const UserRateLimitPath := "/users/_"

  function GuildMemberPath(guild: string, user: string): string {
    "/guilds/" + guild + "/members/" + user
  }

  function GuildMemberRateLimitPath(guild: string): string {
    "/guilds/" + guild + "/members/_"
  }

  /** What `getUser` and `getGuildMember` return: the body, `null`, or the rethrown error. */
  datatype Lookup = Found | Missing | Rethrown(failure: Outcome)

  /** Lines 237-243 and 255-261: only an HTTP 404 becomes `null`. */
  function NullIfNotFound(o: Outcome): (r: Lookup)
    ensures r == Missing <==> o == HttpError(404)
    ensures r == Found <==> o == Success
    ensures r.Rethrown? ==> r.failure == o && o != HttpError(404)
  {
    match o
    case Success => Found
    case HttpError(status) => if status == 404 then Missing else Rethrown(o)
    case NetworkError => Rethrown(o)
  }

  /**
   * User lookups with one token all use the rate-limit key of
   * `UserRateLimitPath`; two of them are one request exactly when they are
   * for the same user.
   */
  lemma UserLookupsDedupPerUser(token: string, u: string, v: string)
    ensures JoinKey(AppAuth(token), UserPath(u)) == JoinKey(AppAuth(token), UserPath(v)) <==> u == v
  {
    if JoinKey(AppAuth(token), UserPath(u)) == JoinKey(AppAuth(token), UserPath(v)) {
      JoinKeyInjective(AppAuth(token), UserPath(u), UserPath(v));
      assert u == UserPath(u)[7..];
      assert v == UserPath(v)[7..];
    }
  }

  /** Member lookups in one guild: the user decides the request key. */
  lemma MemberLookupsDedupPerUser(token: string, g: string, u: string, v: string)
    ensures JoinKey(AppAuth(token), GuildMemberPath(g, u)) == JoinKey(AppAuth(token), GuildMemberPath(g, v)) <==> u == v
  {
    if JoinKey(AppAuth(token), GuildMemberPath(g, u)) == JoinKey(AppAuth(token), GuildMemberPath(g, v)) {
      JoinKeyInjective(AppAuth(token), GuildMemberPath(g, u), GuildMemberPath(g, v));
      var n := |"/guilds/" + g + "/members/"|;
      assert u == GuildMemberPath(g, u)[n..];
      assert v == GuildMemberPath(g, v)[n..];
    }
  }

  /** Member lookups share a rate-limit key exactly when they are in the same guild. */
  lemma MemberRateLimitKeyPerGuild(token: string, g: string, h: string)
    ensures JoinKey(AppAuth(token), GuildMemberRateLimitPath(g)) == JoinKey(AppAuth(token), GuildMemberRateLimitPath(h)) <==> g == h
  {
    if JoinKey(AppAuth(token), GuildMemberRateLimitPath(g)) == JoinKey(AppAuth(token), GuildMemberRateLimitPath(h)) {
      JoinKeyInjective(AppAuth(token), GuildMemberRateLimitPath(g), GuildMemberRateLimitPath(h));
      assert |g| == |h|;
      assert g == GuildMemberRateLimitPath(g)[8..8 + |g|];
      assert h == GuildMemberRateLimitPath(h)[8..8 + |h|];
    }
  }
}
