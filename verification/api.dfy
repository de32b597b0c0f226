/**
  The HTTP client of src/lib/api.ts: how `fetchApiData` turns an endpoint name into a
  request, the retry policy configured through axios-retry (budget, delay, condition),
  and the retry loop that axios-retry runs with that policy.

  The network is a `Transport`: the outcome of the k-th send of the request (k = 0 is the
  first send, k = n the n-th retry), already settled by axios into a response or an error.
*/
module Api {

  import opened Wrappers
  import opened Json

  datatype Verb = Get | Post

  /** What is handed to axios: method, path below the base URL, and JSON body. */
  datatype Request = Request(verb: Verb, path: string, body: Option<Value>)

  /** A received HTTP response. */
  datatype Response = Response(status: int, data: Value)

  /** An axios error: its `code` (if any) and the `response` (if one was received). */
  datatype ApiError = ApiError(code: Option<string>, response: Option<Response>)

  /** The outcome of one send. */
  type Attempt = Result<Response, ApiError>

  /** Outcome of the k-th send of one request. */
  type Transport = nat -> Attempt

  /** `axiosRetry.isNetworkOrIdempotentRequestError`, a predicate of the library left uninterpreted. */
  type LibraryCheck = ApiError -> bool

  const ApiPrefix: string := "/api/v1/"
  const LoginEndpoint: string := "login"

  /** `retries: 3`. */
  const Retries: nat := 3

  /** The first send plus every retry the budget allows. */
  const MaxAttempts: nat := Retries + 1

  /** The error code axios gives a request aborted by its timeout. */
  const TimeoutCode: string := "ECONNABORTED"

  /** Lowest status treated as a server error. */
  const ServerErrorStatus: int := 500

  /** Milliseconds per retry in the linear delay. */
  const DelayUnit: nat := 1000

  /* ---------------- Routing ---------------- */

  /** The request `fetchApiData(endpoint, data)` sends: `login` is POSTed with `data`,
      every other endpoint is fetched with a body-less GET. */
  function Route(endpoint: string, data: Option<Value>): (r: Request)
    ensures r.path == ApiPrefix + endpoint
    ensures r.verb == Post <==> endpoint == LoginEndpoint
    ensures endpoint == LoginEndpoint ==> r.body == data
    ensures endpoint != LoginEndpoint ==> r.body == None
  {
    if endpoint == LoginEndpoint then Request(Post, ApiPrefix + endpoint, data)
    else Request(Get, ApiPrefix + endpoint, None)
  }

  /** The endpoint name a request path addresses, or None for a path outside the API prefix. */
  function EndpointOf(path: string): (e: Option<string>)
    ensures e.Some? <==> ApiPrefix <= path
    ensures e.Some? ==> ApiPrefix + e.value == path
  {
    if ApiPrefix <= path then Some(path[|ApiPrefix|..]) else None
  }

  /** The shape every routed request has: POST exactly for the login path, and a body only on POST. */
  predicate WellFormed(r: Request)
  {
    && EndpointOf(r.path).Some?
    && (r.verb == Post <==> EndpointOf(r.path) == Some(LoginEndpoint))
    && (r.verb == Get ==> r.body == None)
  }

  /** Routing loses nothing: the endpoint is recovered from the path, every routed request is
      well formed, and the login body is exactly the caller's data. */
  lemma RouteRoundTrip(endpoint: string, data: Option<Value>)
    ensures EndpointOf(Route(endpoint, data).path) == Some(endpoint)
    ensures WellFormed(Route(endpoint, data))
    ensures Route(endpoint, data).verb == Post ==> Route(endpoint, data).body == data
  {
  }

  /** Conversely, every well-formed request is what `Route` makes of its own endpoint and body. */
  lemma WellFormedIsRouted(r: Request)
    requires WellFormed(r)
    ensures Route(EndpointOf(r.path).value, r.body) == r
  {
  }

  /* ---------------- Retry policy ---------------- */

  /** `retryDelay`: milliseconds to wait before retry number `retryCount` (counted from 1). */
  function RetryDelay(retryCount: nat): (ms: nat)
    ensures ms % DelayUnit == 0 && ms / DelayUnit == retryCount
  {
    retryCount * DelayUnit
  }

  /** `retryCondition`: the library's verdict, a timeout, or any received 5xx response.
      For the timeout code and a 5xx the request method plays no part, so a 5xx answer to
      the login POST is retried too. The library's own check depends on the method; it is
      supplied per call as `lib`. */
  function ShouldRetry(e: ApiError, lib: LibraryCheck): (r: bool)
    ensures lib(e) ==> r
    ensures e.code == Some(TimeoutCode) ==> r
    ensures e.response.Some? && e.response.value.status >= ServerErrorStatus ==> r
  {
    || lib(e)
    || e.code == Some(TimeoutCode)
    || (e.response.Some? && e.response.value.status >= ServerErrorStatus)
  }

  /** A send that failed in a way the policy retries. */
  function Retryable(a: Attempt, lib: LibraryCheck): (r: bool)
    ensures r ==> a.Err?
    ensures a.Err? ==> (r <==> ShouldRetry(a.error, lib))
  {
    a.Err? && ShouldRetry(a.error, lib)
  }

  /** The condition holds exactly when one of its three disjuncts does; in particular it is
      false for an error the library does not flag, with another code, and no 5xx response. */
  lemma ShouldRetryCases(e: ApiError, lib: LibraryCheck)
    ensures e.code == Some(TimeoutCode) ==> ShouldRetry(e, lib)
    ensures e.response.Some? && e.response.value.status >= ServerErrorStatus ==> ShouldRetry(e, lib)
    ensures !lib(e) && e.code != Some(TimeoutCode) && e.response.None? ==> !ShouldRetry(e, lib)
    ensures !lib(e) && e.code != Some(TimeoutCode) && e.response.Some? && e.response.value.status < ServerErrorStatus
            ==> !ShouldRetry(e, lib)
  {
  }

  /** The delays are linear — 1 s, 2 s, 3 s for the three retries — and strictly increasing. */
  lemma DelayIsLinear(i: nat, j: nat)
    ensures RetryDelay(1) == 1000 && RetryDelay(2) == 2000 && RetryDelay(3) == 3000
    ensures i < j ==> RetryDelay(i) < RetryDelay(j)
    ensures RetryDelay(i + 1) - RetryDelay(i) == DelayUnit
  {
  }

  /** The delays waited before retries 1 .. n, in order. */
  function Schedule(n: nat): (s: seq<nat>)
    ensures |s| == n
    ensures forall i :: 0 <= i < n ==> s[i] == RetryDelay(i + 1)
  {
    seq(n, i requires 0 <= i => RetryDelay(i + 1))
  }

  /** Total of a list of delays. */
  function Sum(xs: seq<nat>): nat
  {
    if xs == [] then 0 else Sum(xs[..|xs| - 1]) + xs[|xs| - 1]
  }

  /** Waiting before retries 1 .. n takes 1000 * n * (n + 1) / 2 ms in all. */
  lemma {:induction false} ScheduleTotal(n: nat)
    ensures 2 * Sum(Schedule(n)) == DelayUnit * n * (n + 1)
  {
    if n > 0 {
      ScheduleTotal(n - 1);
      assert Schedule(n)[..n - 1] == Schedule(n - 1);
      assert Sum(Schedule(n)) == Sum(Schedule(n - 1)) + RetryDelay(n);
      assert DelayUnit * n * (n + 1) == DelayUnit * (n - 1) * n + 2 * (n * DelayUnit);
    }
  }

  /** Over the whole budget the waits are 1000, 2000 and 3000 ms: 6000 ms in all. */
  lemma FullBudgetWait()
    ensures Schedule(Retries) == [1000, 2000, 3000]
    ensures Sum(Schedule(Retries)) == 6000
  {
    ScheduleTotal(Retries);
  }

  /* ---------------- The retry loop ---------------- */

  /** What the retry loop did: the outcome it surfaced and the delays it waited. */
  datatype Trace = Trace(outcome: Attempt, delays: seq<nat>) {
    /** Sends made: the first one plus one per delay. */
    function Attempts(): nat
    {
      |delays| + 1
    }
  }

  /** The behaviour axios-retry promises, independently of how the loop is written: every
      send but the last failed retryably and was followed by the configured delay, the
      surfaced outcome is the last send's verbatim, and the loop stopped only on success,
      on a non-retryable error, or with the budget spent. */
  predicate IsRetryTrace(net: Transport, lib: LibraryCheck, t: Trace)
  {
    && |t.delays| <= Retries
    && t.outcome == net(|t.delays|)
    && (forall i :: 0 <= i < |t.delays| ==> t.delays[i] == RetryDelay(i + 1))
    && (forall k :: 0 <= k < |t.delays| ==> Retryable(net(k), lib))
    && (!Retryable(t.outcome, lib) || |t.delays| == Retries)
  }

  /** The loop from the send numbered `retryCount` onwards. */
  function RetryFrom(net: Transport, lib: LibraryCheck, retryCount: nat): (t: Trace)
    requires retryCount <= Retries
    decreases Retries - retryCount
    ensures retryCount + |t.delays| <= Retries
    ensures t.outcome == net(retryCount + |t.delays|)
    ensures forall i :: 0 <= i < |t.delays| ==> t.delays[i] == RetryDelay(retryCount + i + 1)
    ensures forall k :: retryCount <= k < retryCount + |t.delays| ==> Retryable(net(k), lib)
    ensures !Retryable(t.outcome, lib) || retryCount + |t.delays| == Retries
  {
    var a := net(retryCount);
    if retryCount < Retries && Retryable(a, lib) then
      var rest := RetryFrom(net, lib, retryCount + 1);
      Trace(rest.outcome, [RetryDelay(retryCount + 1)] + rest.delays)
    else
      Trace(a, [])
  }

  /** The whole loop for one request. */
  function Retry(net: Transport, lib: LibraryCheck): (t: Trace)
    ensures IsRetryTrace(net, lib, t)
    ensures 1 <= t.Attempts() <= MaxAttempts
  {
    RetryFrom(net, lib, 0)
  }

  /** The loop's behaviour is fully determined: a trace has the promised shape exactly when it
      is the one `Retry` produces. */
  lemma RetryTraceUnique(net: Transport, lib: LibraryCheck, t: Trace)
    ensures IsRetryTrace(net, lib, t) <==> t == Retry(net, lib)
  {
  }

  /** The same loop written imperatively, as axios-retry runs it: send, and while the send
      failed retryably within budget, wait the configured delay and send again. */
  method SendWithRetries(net: Transport, lib: LibraryCheck) returns (outcome: Attempt, delays: seq<nat>)
    ensures IsRetryTrace(net, lib, Trace(outcome, delays))
    ensures Trace(outcome, delays) == Retry(net, lib)
  {
    var retryCount: nat := 0;
    outcome := net(0);
    delays := [];
    while retryCount < Retries && Retryable(outcome, lib)
      invariant retryCount <= Retries
      invariant |delays| == retryCount
      invariant outcome == net(retryCount)
      invariant forall i :: 0 <= i < retryCount ==> delays[i] == RetryDelay(i + 1)
      invariant forall k :: 0 <= k < retryCount ==> Retryable(net(k), lib)
      decreases Retries - retryCount
    {
      retryCount := retryCount + 1;
      delays := delays + [RetryDelay(retryCount)];
      outcome := net(retryCount);
    }
    RetryTraceUnique(net, lib, Trace(outcome, delays));
  }

  /* ---------------- fetchApiData ---------------- */

  /** One call of `fetchApiData`: the request it issued, how it settled, and the retry trace. */
  datatype Call = Call(request: Request, result: Result<Value, ApiError>, attempts: nat, delays: seq<nat>)

  /** `fetchApiData(endpoint, data)`: route, run the retry loop, and settle with the final
      response's payload or the final error, rethrown as it is. */
  function FetchApiData(endpoint: string, data: Option<Value>, net: Transport, lib: LibraryCheck): (c: Call)
    ensures c.request == Route(endpoint, data)
    ensures 1 <= c.attempts <= MaxAttempts
    ensures c.attempts == |c.delays| + 1
    ensures c.result.Ok? <==> net(c.attempts - 1).Ok?
    ensures c.result.Ok? ==> c.result.value == net(c.attempts - 1).value.data
    ensures c.result.Err? ==> c.result.error == net(c.attempts - 1).error
    ensures forall k :: 0 <= k < c.attempts - 1 ==> Retryable(net(k), lib)
    ensures c.attempts < MaxAttempts ==> !Retryable(net(c.attempts - 1), lib)
    ensures c.delays == Schedule(c.attempts - 1)
  {
    var t := Retry(net, lib);
    var result := match t.outcome
      case Ok(response) => Ok(response.data)
      case Err(e) => Err(e);
    Call(Route(endpoint, data), result, t.Attempts(), t.delays)
  }

  /** n retryable failures followed by a success: the call succeeds iff n <= 3, after
      min(n, 3) + 1 sends, and then returns that success's payload; otherwise it fails with
      the fourth send's error. */
  lemma TransientFailures(endpoint: string, data: Option<Value>, net: Transport, lib: LibraryCheck, n: nat)
    requires forall k :: 0 <= k < n ==> Retryable(net(k), lib)
    requires net(n).Ok?
    ensures FetchApiData(endpoint, data, net, lib).result.Ok? <==> n <= Retries
    ensures FetchApiData(endpoint, data, net, lib).attempts == (if n <= Retries then n else Retries) + 1
    ensures n <= Retries ==> FetchApiData(endpoint, data, net, lib).result == Ok(net(n).value.data)
    ensures n > Retries ==> FetchApiData(endpoint, data, net, lib).result == Err(net(Retries).error)
  {
  }

  /** A send that fails non-retryably ends the call there, and its error is surfaced as it is. */
  lemma NonRetryableStops(endpoint: string, data: Option<Value>, net: Transport, lib: LibraryCheck, n: nat)
    requires n <= Retries
    requires forall k :: 0 <= k < n ==> Retryable(net(k), lib)
    requires net(n).Err? && !ShouldRetry(net(n).error, lib)
    ensures FetchApiData(endpoint, data, net, lib).attempts == n + 1
    ensures FetchApiData(endpoint, data, net, lib).result == Err(net(n).error)
  {
  }

  /** A 5xx answer to the login POST is retried like any other: the call sends again. */
  lemma LoginServerErrorRetried(data: Option<Value>, net: Transport, lib: LibraryCheck)
    requires net(0).Err? && net(0).error.response.Some?
    requires net(0).error.response.value.status >= ServerErrorStatus
    ensures FetchApiData(LoginEndpoint, data, net, lib).request.verb == Post
    ensures FetchApiData(LoginEndpoint, data, net, lib).attempts >= 2
  {
  }

  /** A call that used up its budget made four sends and waited 6000 ms between them. */
  lemma ExhaustedCallWait(endpoint: string, data: Option<Value>, net: Transport, lib: LibraryCheck)
    requires FetchApiData(endpoint, data, net, lib).attempts == MaxAttempts
    ensures Sum(FetchApiData(endpoint, data, net, lib).delays) == 6000
  {
    FullBudgetWait();
  }
}
