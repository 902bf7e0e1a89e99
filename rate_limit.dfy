/**
 * The decisions of the outbound request coordinator of `lib/discord.ts`,
 * as functions of the coordinator's state and of what a response carries:
 * the gate in front of every dispatch, the recording of the rate-limit
 * headers, the classification of the status code with its retry delays,
 * and the expiry sweep of bindings.
 *
 * Times are milliseconds. `now` is the integer clock of `Date.now()`;
 * reset times come from a fractional header and are kept as reals.
 */
module RateLimit {
  import opened Common

  /** The state kept for one server-side bucket: `{ resetAt, remaining }`. */
  datatype Bucket = Bucket(resetAt: real, remaining: int)

  function Get<K, V>(m: map<K, V>, k: K): Option<V> {
    if k in m then Some(m[k]) else None
  }

  /** The bucket a rate-limit key is known to use: binding, then bucket record (lines 9-12). */
  function KnownBucket(bindings: map<string, string>, buckets: map<string, Bucket>, rateLimitKey: string)
    : (r: Option<Bucket>)
    ensures r.Some? <==> rateLimitKey in bindings && bindings[rateLimitKey] in buckets
    ensures r.Some? ==> r.value == buckets[bindings[rateLimitKey]]
  {
    if rateLimitKey in bindings then Get(buckets, bindings[rateLimitKey]) else None
  }

  // ---------------------------------------------------------------------
  // The gate (lines 9-54)

  /** What the gate lets a call do next. */
  datatype GateAction =
    | WaitForRequest(handle: nat)   // await the head-of-line request, then gate again
    | WaitForReset(delay: real)     // sleep `delay` ms, then gate again
    | Dispatch                      // send the request now

  /**
   * Without a known bucket a call waits behind the head-of-line request if
   * there is one; with a known bucket it waits until the reset time when the
   * bucket is used up, and is let through otherwise.
   */
  function GateDecision(known: Option<Bucket>, headOfLine: Option<nat>, now: int): (a: GateAction)
    ensures a.WaitForRequest? <==> known.None? && headOfLine.Some?
    ensures a.WaitForRequest? ==> a.handle == headOfLine.value
    ensures a.WaitForReset? <==>
              known.Some? && known.value.remaining <= 0 && known.value.resetAt - now as real > 0.0
    ensures a.WaitForReset? ==> a.delay > 0.0 && now as real + a.delay == known.value.resetAt
  {
    match known
    case None => if headOfLine.Some? then WaitForRequest(headOfLine.value) else Dispatch
    case Some(bucket) =>
      var delayUntil := bucket.resetAt - now as real;
      if delayUntil > 0.0 && bucket.remaining <= 0 then WaitForReset(delayUntil) else Dispatch
  }

  /** A used-up bucket never lets a call through before its reset time. */
  lemma NoDispatchBeforeReset(b: Bucket, headOfLine: Option<nat>, now: int)
    requires b.remaining <= 0 && (now as real) < b.resetAt
    ensures GateDecision(Some(b), headOfLine, now) == WaitForReset(b.resetAt - now as real)
  {
  }

  /** Sleeping for the delay the gate asked for is enough, as long as the bucket was not refreshed. */
  lemma ResetWaitSuffices(b: Bucket, headOfLine: Option<nat>, now: int, later: int)
    requires GateDecision(Some(b), headOfLine, now).WaitForReset?
    requires later as real >= now as real + GateDecision(Some(b), headOfLine, now).delay
    ensures GateDecision(Some(b), headOfLine, later) == Dispatch
  {
  }

  /** A call never waits on the head-of-line request once its bucket is known. */
  lemma KnownBucketIgnoresHeadOfLine(b: Bucket, h1: Option<nat>, h2: Option<nat>, now: int)
    ensures GateDecision(Some(b), h1, now) == GateDecision(Some(b), h2, now)
  {
  }

  /**
   * The intended gate for the call whose request has handle `self`: as
   * above, except that it never waits on a request issued after or as
   * itself. Handles grow with issue order, so every wait then points at an
   * earlier request and no chain of waits can close into a cycle.
   */
  function GateDecisionFor(known: Option<Bucket>, headOfLine: Option<nat>, self: nat, now: int): (a: GateAction)
    ensures a.WaitForRequest? <==> known.None? && headOfLine.Some? && headOfLine.value < self
    ensures a.WaitForRequest? ==> a.handle == headOfLine.value && a.handle < self
    ensures a.WaitForReset? <==>
              known.Some? && known.value.remaining <= 0 && known.value.resetAt - now as real > 0.0
    ensures a.WaitForReset? ==> a.delay > 0.0 && now as real + a.delay == known.value.resetAt
  {
    if known.None? && headOfLine.Some? && headOfLine.value >= self then Dispatch
    else GateDecision(known, headOfLine, now)
  }

  /** A request's first gate sees only earlier handles, so there the two gates agree. */
  lemma CorrectionOnlyAffectsRetries(known: Option<Bucket>, headOfLine: Option<nat>, self: nat, now: int)
    requires headOfLine.None? || headOfLine.value < self
    ensures GateDecisionFor(known, headOfLine, self, now) == GateDecision(known, headOfLine, now)
  {
  }

  /**
   * A chain of calls under the intended gate, where call `i` (its request
   * has handle `chain[i]`) gates on what it sees, `known[i]`, `heads[i]` at
   * `nows[i]`, and is told to wait on the request of call `i + 1`. Each
   * wait points at a strictly older request, so no handle occurs twice and
   * the chain never returns to where it started.
   */
  lemma {:induction false} WaitChainsDescend(chain: seq<nat>, known: seq<Option<Bucket>>,
                                             heads: seq<Option<nat>>, nows: seq<int>)
    requires |chain| >= 1 && |known| == |heads| == |nows| == |chain| - 1
    requires forall i :: 0 <= i < |chain| - 1 ==>
               GateDecisionFor(known[i], heads[i], chain[i], nows[i]) == WaitForRequest(chain[i + 1])
    ensures forall i, j :: 0 <= i < j < |chain| ==> chain[j] < chain[i]
    ensures |chain| >= 2 ==> chain[|chain| - 1] != chain[0]
  {
    if |chain| >= 2 {
      var tail := chain[1..];
      forall i | 0 <= i < |tail| - 1
        ensures GateDecisionFor(known[1..][i], heads[1..][i], tail[i], nows[1..][i]) == WaitForRequest(tail[i + 1])
      {
        assert GateDecisionFor(known[i + 1], heads[i + 1], chain[i + 1], nows[i + 1]) == WaitForRequest(chain[i + 2]);
      }
      WaitChainsDescend(tail, known[1..], heads[1..], nows[1..]);
      assert chain[1] < chain[0] by {
        assert GateDecisionFor(known[0], heads[0], chain[0], nows[0]) == WaitForRequest(chain[1]);
      }
      forall i, j | 0 <= i < j < |chain| ensures chain[j] < chain[i] {
        if i == 0 {
          if j > 1 {
            assert tail[j - 1] < tail[0];
          }
        } else {
          assert tail[j - 1] < tail[i - 1];
        }
      }
    }
  }

  /** `rateLimitBucket.remaining -= 1` on the bucket record the call was let through against (line 53). */
  function Reserve(buckets: map<string, Bucket>, bucketId: string): (r: map<string, Bucket>)
    requires bucketId in buckets
    ensures r.Keys == buckets.Keys
    ensures r[bucketId] == buckets[bucketId].(remaining := buckets[bucketId].remaining - 1)
    ensures forall k :: k in buckets && k != bucketId ==> r[k] == buckets[k]
  {
    buckets[bucketId := buckets[bucketId].(remaining := buckets[bucketId].remaining - 1)]
  }

  /** The bucket records after the gate: only a dispatch against a known bucket reserves. */
  function BucketsAfterGate(bindings: map<string, string>, buckets: map<string, Bucket>,
                            rateLimitKey: string, action: GateAction): (r: map<string, Bucket>)
    ensures r.Keys == buckets.Keys
    ensures forall k :: k in buckets && !(action.Dispatch? && rateLimitKey in bindings && k == bindings[rateLimitKey]) ==>
              r[k] == buckets[k]
    ensures action.Dispatch? && KnownBucket(bindings, buckets, rateLimitKey).Some? ==>
              r[bindings[rateLimitKey]].remaining == buckets[bindings[rateLimitKey]].remaining - 1
              && r[bindings[rateLimitKey]].resetAt == buckets[bindings[rateLimitKey]].resetAt
  {
    if action.Dispatch? && KnownBucket(bindings, buckets, rateLimitKey).Some?
    then Reserve(buckets, bindings[rateLimitKey])
    else buckets
  }

  // ---------------------------------------------------------------------
  // Recording the rate-limit headers (lines 62-82)

  /** `x-ratelimit-bucket`, `x-ratelimit-remaining` and `x-ratelimit-reset`, each maybe absent. */
  datatype Headers = Headers(bucket: Option<string>, remaining: Option<int>, reset: Option<real>)

  /** Reset header in seconds to the stored reset time: `reset * 1000 + 500`. */
  function StoredResetAt(reset: real): real {
    reset * 1000.0 + 500.0
  }

  /**
   * The bucket id the call goes on with after lines 63-67: the header's id
   * when it is present and differs from the id the call saw at the gate.
   */
  function BucketIdAfter(gateId: Option<string>, h: Headers): (r: Option<string>)
    ensures h.bucket.Some? ==> r == h.bucket
    ensures h.bucket.None? ==> r == gateId
  {
    if h.bucket.Some? && h.bucket != gateId then h.bucket else gateId
  }

  /** The bindings after lines 63-67: overwritten only for a new, different bucket header. */
  function BindingsAfter(bindings: map<string, string>, rateLimitKey: string, gateId: Option<string>, h: Headers)
    : (r: map<string, string>)
    ensures r != bindings ==> h.bucket.Some? && h.bucket != gateId
    ensures h.bucket.Some? && h.bucket != gateId ==> r == bindings[rateLimitKey := h.bucket.value]
    ensures forall k :: k != rateLimitKey ==> Get(r, k) == Get(bindings, k)
  {
    if h.bucket.Some? && h.bucket != gateId then bindings[rateLimitKey := h.bucket.value] else bindings
  }

  /**
   * Line 79 decides whether a header pair replaces a record: always when
   * there is nothing to compare with or the reset time differs, and for an
   * equal reset time only with a strictly lower remaining count.
   */
  predicate Replaces(compareWith: Option<Bucket>, resetAt: real, remaining: int) {
    compareWith.None? || resetAt != compareWith.value.resetAt || remaining < compareWith.value.remaining
  }

  /**
   * Lines 70-81 with the record to compare with passed explicitly. The
   * source compares with `compareWith` = the record the call obtained at
   * its gate, before the request went out.
   */
  function UpdateBucket(buckets: map<string, Bucket>, bucketId: Option<string>, compareWith: Option<Bucket>, h: Headers)
    : (r: map<string, Bucket>)
    ensures bucketId.None? || h.remaining.None? || h.reset.None? ==> r == buckets
    ensures bucketId.Some? && h.remaining.Some? && h.reset.Some? &&
            Replaces(compareWith, StoredResetAt(h.reset.value), h.remaining.value)
            ==> bucketId.value in r && r[bucketId.value] == Bucket(StoredResetAt(h.reset.value), h.remaining.value)
    ensures bucketId.Some? && h.remaining.Some? && h.reset.Some? &&
            !Replaces(compareWith, StoredResetAt(h.reset.value), h.remaining.value)
            ==> r == buckets
    ensures forall k :: k in buckets && Some(k) != bucketId ==> k in r && r[k] == buckets[k]
    ensures forall k :: k in r ==> k in buckets || Some(k) == bucketId
  {
    if bucketId.Some? && h.remaining.Some? && h.reset.Some? then
      var resetAt := StoredResetAt(h.reset.value);
      if Replaces(compareWith, resetAt, h.remaining.value)
      then buckets[bucketId.value := Bucket(resetAt, h.remaining.value)]
      else buckets
    else buckets
  }

  /**
   * As written, a call compares with the record it saw at its gate. When a
   * racing response has meanwhile replaced that record, a stale response
   * with the same reset time raises the stored count from 1 back to 3.
   */
  lemma StaleCaptureRaisesRemaining()
    ensures
      var seenAtGate := Bucket(1000.0, 0);
      var before := map["b" := seenAtGate];
      var h1 := Headers(Some("b"), Some(1), Some(5.0));
      var h3 := Headers(Some("b"), Some(3), Some(5.0));
      var afterFirst := UpdateBucket(before, Some("b"), Some(seenAtGate), h1);
      var afterSecond := UpdateBucket(afterFirst, Some("b"), Some(seenAtGate), h3);
      && afterFirst["b"] == Bucket(5500.0, 1)
      && afterSecond["b"] == Bucket(5500.0, 3)
  {
  }

  /**
   * The intended rule: compare with the record currently stored under the
   * bucket id being written, so that an out-of-order response cannot undo a
   * lower count observed for the same reset time.
   */
  function RecordHeaders(buckets: map<string, Bucket>, bucketId: Option<string>, h: Headers)
    : (r: map<string, Bucket>)
    ensures bucketId.None? || h.remaining.None? || h.reset.None? ==> r == buckets
    ensures forall k :: k in buckets && Some(k) != bucketId ==> k in r && r[k] == buckets[k]
    ensures bucketId.Some? && h.remaining.Some? && h.reset.Some? ==>
              && bucketId.value in r
              && r[bucketId.value].resetAt == StoredResetAt(h.reset.value)
              && (bucketId.value in buckets && buckets[bucketId.value].resetAt == StoredResetAt(h.reset.value) ==>
                    r[bucketId.value].remaining == Min(h.remaining.value, buckets[bucketId.value].remaining))
              && (bucketId.value !in buckets || buckets[bucketId.value].resetAt != StoredResetAt(h.reset.value) ==>
                    r[bucketId.value] == Bucket(StoredResetAt(h.reset.value), h.remaining.value))
  {
    UpdateBucket(buckets, bucketId, if bucketId.Some? then Get(buckets, bucketId.value) else None, h)
  }

  function Min(a: int, b: int): int {
    if a < b then a else b
  }

  /** On the same input as above, the intended rule keeps the lower count. */
  lemma CurrentRecordKeepsLower()
    ensures
      var before := map["b" := Bucket(1000.0, 0)];
      var h1 := Headers(Some("b"), Some(1), Some(5.0));
      var h3 := Headers(Some("b"), Some(3), Some(5.0));
      RecordHeaders(RecordHeaders(before, Some("b"), h1), Some("b"), h3)["b"] == Bucket(5500.0, 1)
  {
  }

  /** Headers for one bucket id recorded in arrival order. */
  function RecordAll(buckets: map<string, Bucket>, id: string, hs: seq<Headers>): map<string, Bucket>
    decreases hs
  {
    if hs == [] then buckets else RecordAll(RecordHeaders(buckets, Some(id), hs[0]), id, hs[1..])
  }

  /** Every header of `hs` carries counts for the reset time `resetAt`. */
  ghost predicate SameWindow(hs: seq<Headers>, resetAt: real) {
    forall i :: 0 <= i < |hs| ==>
      hs[i].remaining.Some? && hs[i].reset.Some? && StoredResetAt(hs[i].reset.value) == resetAt
  }

  /**
   * Under the intended rule, responses for the reset time already stored
   * leave the lowest count seen, whatever order they arrive in: the result
   * is at most every count involved and equal to one of them.
   */
  lemma {:induction false} SameWindowKeepsLowest(buckets: map<string, Bucket>, id: string, hs: seq<Headers>)
    requires id in buckets
    decreases hs
    requires SameWindow(hs, buckets[id].resetAt)
    ensures var r := RecordAll(buckets, id, hs);
            && id in r
            && r[id].resetAt == buckets[id].resetAt
            && r[id].remaining <= buckets[id].remaining
            && (forall i :: 0 <= i < |hs| ==> r[id].remaining <= hs[i].remaining.value)
            && (r[id].remaining == buckets[id].remaining ||
                exists i :: 0 <= i < |hs| && r[id].remaining == hs[i].remaining.value)
  {
    if hs != [] {
      var next := RecordHeaders(buckets, Some(id), hs[0]);
      assert SameWindow(hs[1..], next[id].resetAt) by {
        forall i | 0 <= i < |hs[1..]| ensures hs[1..][i] == hs[i + 1] { }
      }
      SameWindowKeepsLowest(next, id, hs[1..]);
      var r := RecordAll(next, id, hs[1..]);
      assert r == RecordAll(buckets, id, hs);
      forall i | 0 <= i < |hs| ensures r[id].remaining <= hs[i].remaining.value {
        if i > 0 {
          assert hs[1..][i - 1] == hs[i];
        }
      }
      if r[id].remaining != next[id].remaining {
        var j :| 0 <= j < |hs[1..]| && r[id].remaining == hs[1..][j].remaining.value;
        assert hs[1..][j] == hs[j + 1];
      }
    }
  }

  // ---------------------------------------------------------------------
  // Classification of the status (lines 95-145)

  /** What a settled response leads to. */
  datatype Verdict =
    | RetryRateLimited              // 429: same attempt, after the server's `retry_after`
    | RetryServerError(next: nat)   // 5xx within the budget: next attempt, after a backoff
    | Fail                          // other non-ok status: the error carries the status
    | Succeed                       // ok status: the body is the result

  /** The attempt ceiling of the 5xx retries. */
  const MaxAttempts := 3

  /** `response.ok` */
  predicate IsOk(status: int) {
    200 <= status < 300
  }

  predicate IsServerError(status: int) {
    500 <= status < 600
  }

  function Classify(status: int, attempt: nat): (v: Verdict)
    ensures status == 429 <==> v == RetryRateLimited
    ensures v.RetryServerError? <==> IsServerError(status) && attempt + 1 < MaxAttempts
    ensures v.RetryServerError? ==> v.next == attempt + 1
    ensures v == Succeed <==> IsOk(status)
    ensures v == Fail <==> status != 429 && !IsOk(status) && !(IsServerError(status) && attempt + 1 < MaxAttempts)
  {
    if status == 429 then RetryRateLimited
    else if IsServerError(status) && attempt + 1 < MaxAttempts then RetryServerError(attempt + 1)
    else if !IsOk(status) then Fail
    else Succeed
  }

  /**
   * The wait before a 429 retry: `retry_after * 1000 + 500` ms, that is
   * the server's `retry_after` converted from seconds, plus half a second.
   */
  function RateLimitDelay(retryAfter: real): (d: real)
    ensures d - retryAfter * 1000.0 == 500.0
    ensures retryAfter >= 0.0 ==> d >= 500.0
  {
    retryAfter * 1000.0 + 500.0
  }

  function Pow10(n: nat): (p: nat)
    ensures p >= 1
  {
    if n == 0 then 1 else 10 * Pow10(n - 1)
  }

  /**
   * The wait before a 5xx retry: `(1 / 10) * 10 ** attempt` seconds, in
   * ms. It starts at 100 ms and grows tenfold with every attempt.
   */
  function ServerErrorDelay(attempt: nat): (d: real)
    ensures attempt == 0 ==> d == 100.0
    ensures attempt > 0 ==> d == 10.0 * ServerErrorDelay(attempt - 1)
    ensures d >= 100.0
  {
    100.0 * Pow10(attempt) as real
  }

  /** The two 5xx backoffs are 100 ms and then 1000 ms. */
  lemma ServerErrorDelays()
    ensures ServerErrorDelay(0) == 100.0 && ServerErrorDelay(1) == 1000.0
    ensures forall a: nat :: Classify(500, a).RetryServerError? ==> a <= 1
  {
  }

  /** How a chain of attempts ends, given the statuses the server answers with. */
  datatype ChainEnd = Settled(verdict: Verdict, status: int, calls: nat) | NeedsMoreResponses

  /** The self-recursion of `makeDiscordRequestInner` over the statuses of successive calls. */
  function RunChain(statuses: seq<int>, attempt: nat): (e: ChainEnd)
    ensures e.Settled? ==> e.verdict == Fail || e.verdict == Succeed
    ensures e.Settled? ==> 1 <= e.calls <= |statuses|
  {
    if statuses == [] then NeedsMoreResponses
    else
      match Classify(statuses[0], attempt)
      case RetryRateLimited => Later(RunChain(statuses[1..], attempt))
      case RetryServerError(next) => Later(RunChain(statuses[1..], next))
      case v => Settled(v, statuses[0], 1)
  }

  function Later(e: ChainEnd): ChainEnd {
    if e.Settled? then e.(calls := e.calls + 1) else e
  }

  function ServerErrors(statuses: seq<int>): nat {
    if statuses == [] then 0 else (if IsServerError(statuses[0]) then 1 else 0) + ServerErrors(statuses[1..])
  }

  /**
   * Server errors are retried at most twice in all: a chain that starts at
   * attempt 0 settles on its third 5xx status, if not before, and that
   * status is the error the caller sees. Rate-limit answers do not count.
   */
  lemma {:induction false} ServerErrorBudget(statuses: seq<int>, attempt: nat)
    requires attempt < MaxAttempts
    requires ServerErrors(statuses) >= MaxAttempts - attempt
    ensures RunChain(statuses, attempt).Settled?
    ensures var e := RunChain(statuses, attempt);
            ServerErrors(statuses[..e.calls]) <= MaxAttempts - attempt
  {
    var s, rest := statuses[0], statuses[1..];
    assert statuses == [s] + rest;
    match Classify(s, attempt)
    case RetryRateLimited =>
      ServerErrorBudget(rest, attempt);
      var e := RunChain(rest, attempt);
      assert statuses[..e.calls + 1] == [s] + rest[..e.calls];
      assert ([s] + rest[..e.calls])[1..] == rest[..e.calls];
    case RetryServerError(next) =>
      ServerErrorBudget(rest, next);
      var e := RunChain(rest, next);
      assert statuses[..e.calls + 1] == [s] + rest[..e.calls];
      assert ([s] + rest[..e.calls])[1..] == rest[..e.calls];
    case _ =>
      assert statuses[..1] == [s];
  }

  /** Three 500s in a row fail with 500; two 500s and then a 200 succeed on the third call. */
  lemma ServerErrorExamples()
    ensures RunChain([500, 500, 500], 0) == Settled(Fail, 500, 3)
    ensures RunChain([500, 500, 200], 0) == Settled(Succeed, 200, 3)
    ensures RunChain([429, 429, 500, 500, 200], 0) == Settled(Succeed, 200, 5)
  {
    assert [500, 500, 500][1..] == [500, 500];
    assert [500, 500][1..] == [500];
    assert [500, 500, 200][1..] == [500, 200];
    assert [500, 200][1..] == [200];
    assert [429, 429, 500, 500, 200][1..] == [429, 500, 500, 200];
    assert [429, 500, 500, 200][1..] == [500, 500, 200];
  }

  // ---------------------------------------------------------------------
  // The expiry sweep (lines 118-136)

  /** Buckets are kept for 30 minutes after their reset time. */
  const KeepExpiredFor := 1000 * 60 * 30

  predicate Expired(b: Bucket, now: int) {
    b.resetAt < (now - KeepExpiredFor) as real
  }

  function ExpiredIds(buckets: map<string, Bucket>, now: int): (s: set<string>)
    ensures forall id :: id in s <==> id in buckets && Expired(buckets[id], now)
  {
    set id | id in buckets && Expired(buckets[id], now)
  }

  /** The bindings the sweep keeps: those not pointing at an expired bucket record. */
  function LiveBindings(bindings: map<string, string>, buckets: map<string, Bucket>, now: int)
    : (r: map<string, string>)
    ensures forall k :: k in r <==> k in bindings && bindings[k] !in ExpiredIds(buckets, now)
    ensures forall k :: k in r ==> r[k] == bindings[k]
  {
    map k | k in bindings && bindings[k] !in ExpiredIds(buckets, now) :: bindings[k]
  }

  /** A second sweep at the same time removes nothing more, and later sweeps keep fewer bindings. */
  lemma SweepSettles(bindings: map<string, string>, buckets: map<string, Bucket>, now: int, later: int)
    requires now <= later
    ensures LiveBindings(LiveBindings(bindings, buckets, now), buckets, now) == LiveBindings(bindings, buckets, now)
    ensures LiveBindings(bindings, buckets, later).Keys <= LiveBindings(bindings, buckets, now).Keys
  {
  }

  /** After a sweep, no key is bound to an expired bucket, and nothing is bound anew. */
  lemma SweepLeavesNoExpiredBinding(bindings: map<string, string>, buckets: map<string, Bucket>, now: int)
    ensures forall k :: k in LiveBindings(bindings, buckets, now) ==>
              KnownBucket(LiveBindings(bindings, buckets, now), buckets, k).None? ||
              !Expired(KnownBucket(LiveBindings(bindings, buckets, now), buckets, k).value, now)
  {
  }
}
