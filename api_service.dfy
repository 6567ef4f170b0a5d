/**
 * The remote fetcher (src/services/apiService.js): one request with a
 * timeout, a bounded retry loop with linear backoff, the schema check on the
 * event list, lookup by id and the health probe.
 *
 * The network is not modelled: the outcome of the k-th attempt of a request
 * is `attempts[k]`, and every `sleep` is recorded in the returned `delays`
 * instead of being waited for.
 */
module ApiService {
  import opened Wrappers
  import opened JsValues
  import opened Seqs

  const RetryAttempts: nat := 3
  const RetryDelay: nat := 1000

  /** What `response.json()` yields: the parsed body, or the message of the SyntaxError it rejects with. */
  datatype Body = Json(data: Value) | Unparseable(message: string)

  datatype Response = Response(status: int, body: Body)

  /** How one `fetch` ends: aborted by the timeout, rejected by the network layer, or answered. */
  datatype Attempt = TimedOut | NetworkFailure(message: string) | Received(response: Response)

  /**
   * What can be thrown: an `ApiError` (status None for `null`), any other
   * `Error`, or `undefined` (the `throw lastError` after a loop that never ran).
   */
  datatype Error = ApiError(message: string, status: Option<int>) | PlainError(message: string) | NothingThrown

  predicate IsOk(status: int) {
    200 <= status <= 299
  }

  /** `fetchWithTimeout`: an aborted fetch becomes an ApiError with status 408. */
  function FetchWithTimeout(a: Attempt): (r: Result<Response, Error>)
    ensures a.TimedOut? ==> r == Failure(ApiError("Request timeout", Some(408)))
    ensures a.Received? <==> r.Success?
  {
    match a
    case TimedOut => Failure(ApiError("Request timeout", Some(408)))
    case NetworkFailure(m) => Failure(PlainError(m))
    case Received(response) => Success(response)
  }

  /**
   * The body of one iteration of the retry loop: fetch, reject a non-2xx
   * status, then read the body as JSON (skipped when `readBody` is false, see
   * CheckApiHealth).
   */
  function AttemptResult(a: Attempt, readBody: bool): (r: Result<Value, Error>)
    ensures r.Success? ==> a.Received? && IsOk(a.response.status)
    ensures !a.Received? ==> r == Failure(FetchWithTimeout(a).error)
    ensures a.Received? && !IsOk(a.response.status) ==> r.Failure? && r.error.ApiError? && r.error.status == Some(a.response.status)
    ensures a.Received? && IsOk(a.response.status) ==>
      && (!readBody ==> r.Success?)
      && (readBody && a.response.body.Json? ==> r == Success(a.response.body.data))
      && (readBody && a.response.body.Unparseable? ==> r == Failure(PlainError(a.response.body.message)))
    ensures r != Failure(NothingThrown)
  {
    match FetchWithTimeout(a)
    case Failure(e) => Failure(e)
    case Success(response) =>
      if !IsOk(response.status) then
        Failure(ApiError("HTTP error! status: " + IntText(response.status), Some(response.status)))
      else if !readBody then Success(Null)
      else match response.body
        case Json(data) => Success(data)
        case Unparseable(m) => Failure(PlainError(m))
  }

  /** A 4xx status other than 408: the retry loop rethrows it at once. */
  predicate IsClientError(e: Error) {
    e.ApiError? && e.status.Some? && 400 <= e.status.value < 500 && e.status.value != 408
  }

  /** The attempt ends the retry loop whatever the remaining budget: success, or a client error. */
  predicate Settles(a: Attempt, readBody: bool) {
    var r := AttemptResult(a, readBody);
    r.Success? || IsClientError(r.error)
  }

  /** Index of the last attempt the loop makes, scanning from attempt k. */
  function StopFrom(attempts: seq<Attempt>, retries: nat, readBody: bool, k: nat): (s: nat)
    requires k <= retries < |attempts|
    ensures k <= s <= retries
    decreases retries - k
  {
    if k == retries || Settles(attempts[k], readBody) then k
    else StopFrom(attempts, retries, readBody, k + 1)
  }

  /** Index of the last attempt `makeApiRequest` makes. */
  function StopIndex(attempts: seq<Attempt>, retries: nat, readBody: bool): (s: nat)
    requires retries < |attempts|
    ensures s <= retries
  {
    StopFrom(attempts, retries, readBody, 0)
  }

  /**
   * The loop stops at the first attempt that succeeds or fails with a client
   * error, or after attempt number `retries` (the (retries+1)-th attempt);
   * every earlier attempt failed in a way that is retried.
   */
  lemma StopIndexCharacterized(attempts: seq<Attempt>, retries: nat, readBody: bool)
    requires retries < |attempts|
    ensures StopIndex(attempts, retries, readBody) <= retries
    ensures var k := StopIndex(attempts, retries, readBody);
      Settles(attempts[k], readBody) || k == retries
    ensures forall j :: 0 <= j < StopIndex(attempts, retries, readBody) ==> !Settles(attempts[j], readBody)
  {
    StopFromCharacterized(attempts, retries, readBody, 0);
  }

  lemma {:induction false} StopFromCharacterized(attempts: seq<Attempt>, retries: nat, readBody: bool, k: nat)
    requires k <= retries < |attempts|
    ensures k <= StopFrom(attempts, retries, readBody, k) <= retries
    ensures var s := StopFrom(attempts, retries, readBody, k);
      Settles(attempts[s], readBody) || s == retries
    ensures forall j :: k <= j < StopFrom(attempts, retries, readBody, k) ==> !Settles(attempts[j], readBody)
    decreases retries - k
  {
    if k < retries && !Settles(attempts[k], readBody) {
      StopFromCharacterized(attempts, retries, readBody, k + 1);
    }
  }

  /** The sleeps after the first n failed attempts: RETRY_DELAY × (k + 1) after attempt k. */
  function Backoff(n: nat): (r: seq<int>)
    ensures |r| == n
  {
    seq(n, k => RetryDelay * (k + 1))
  }

  /** `makeApiRequest`: at most retries + 1 attempts, the result of the last one, linear backoff in between. */
  method MakeApiRequest(attempts: seq<Attempt>, retries: int, readBody: bool)
    returns (result: Result<Value, Error>, made: nat, delays: seq<int>)
    requires retries < |attempts|
    ensures retries < 0 ==> result == Failure(NothingThrown) && made == 0 && delays == []
    ensures retries >= 0 ==>
      && made == StopIndex(attempts, retries, readBody) + 1
      && result == AttemptResult(attempts[made - 1], readBody)
      && delays == Backoff(made - 1)
  {
    delays := [];
    made := 0;
    var lastError: Error := NothingThrown;
    var attempt := 0;
    while attempt <= retries
      invariant 0 <= attempt && attempt == made
      invariant retries >= 0 ==> attempt <= retries && StopFrom(attempts, retries, readBody, attempt) == StopIndex(attempts, retries, readBody)
      invariant delays == Backoff(attempt)
      invariant attempt == 0 ==> lastError == NothingThrown
      invariant retries < 0 ==> attempt == 0
    {
      made := made + 1;
      var r := AttemptResult(attempts[attempt], readBody);
      if r.Success? {
        return r, made, delays;
      }
      lastError := r.error;
      if IsClientError(lastError) {
        return Failure(lastError), made, delays;
      }
      if attempt == retries {
        return Failure(lastError), made, delays;
      }
      delays := delays + [RetryDelay * (attempt + 1)];
      attempt := attempt + 1;
    }
    return Failure(lastError), made, delays;
  }

  /** With the default budget the loop makes at most four attempts. */
  lemma AtMostFourAttempts(attempts: seq<Attempt>, readBody: bool)
    requires RetryAttempts < |attempts|
    ensures StopIndex(attempts, RetryAttempts, readBody) + 1 <= 4
  {
    StopIndexCharacterized(attempts, RetryAttempts, readBody);
  }

  /** A client error is surfaced on the attempt that got it, with no sleep and no further attempt. */
  lemma ClientErrorIsNotRetried(attempts: seq<Attempt>, retries: nat, readBody: bool, k: nat)
    requires k <= retries < |attempts|
    requires forall j :: 0 <= j < k ==> !Settles(attempts[j], readBody)
    requires AttemptResult(attempts[k], readBody).Failure? && IsClientError(AttemptResult(attempts[k], readBody).error)
    ensures StopIndex(attempts, retries, readBody) == k
    ensures |Backoff(StopIndex(attempts, retries, readBody))| == k
  {
    StopIndexCharacterized(attempts, retries, readBody);
  }

  /** A timeout is an ApiError with status 408, which the loop retries. */
  lemma TimeoutIsRetried(readBody: bool)
    ensures AttemptResult(TimedOut, readBody) == Failure(ApiError("Request timeout", Some(408)))
    ensures !Settles(TimedOut, readBody)
  {
  }

  /** Two timeouts and then an answer: the answer's data, after sleeping 1000 and then 2000 ms. */
  lemma TwoTimeoutsThenSuccess(data: Value, rest: seq<Attempt>)
    requires rest != []
    ensures var attempts := [TimedOut, TimedOut, Received(Response(200, Json(data)))] + rest;
      && StopIndex(attempts, RetryAttempts, true) == 2
      && AttemptResult(attempts[2], true) == Success(data)
      && Backoff(2) == [1000, 2000]
  {
    var attempts := [TimedOut, TimedOut, Received(Response(200, Json(data)))] + rest;
    assert !Settles(attempts[0], true) && !Settles(attempts[1], true) && Settles(attempts[2], true);
  }

  /** The result of `fetchSportsEvents` given the result of its request. */
  function EventsOf(r: Result<Value, Error>): (e: Result<seq<Value>, Error>)
    requires r != Failure(NothingThrown)
    ensures e.Success? <==> r.Success? && r.value.Arr?
    ensures e.Success? ==> e.value == r.value.items
    ensures e.Failure? ==> e.error.ApiError?
    ensures r.Success? && !r.value.Arr? ==> e.error.status == None
    ensures r.Failure? && r.error.ApiError? ==> e.error == r.error
    ensures r.Failure? && !r.error.ApiError? ==> e.error.status == None
    ensures r.Success? && !r.value.Arr? ==> e.error.message == "Invalid API response: expected array of events"
    ensures r.Failure? && !r.error.ApiError? ==> e.error.message == "Failed to fetch sports events: " + r.error.message
  {
    match r
    case Success(data) =>
      if data.Arr? then Success(data.items)
      else Failure(ApiError("Invalid API response: expected array of events", None))
    case Failure(error) =>
      if error.ApiError? then Failure(error)
      else Failure(ApiError("Failed to fetch sports events: " + error.message, None))
  }

  /**
   * `fetchSportsEvents`: the request with the default budget; a body that is
   * not an array is rejected after the loop (so it is never retried), and any
   * error that is not an ApiError is wrapped in one with a null status.
   */
  method FetchSportsEvents(attempts: seq<Attempt>) returns (result: Result<seq<Value>, Error>, made: nat, delays: seq<int>)
    requires RetryAttempts < |attempts|
    ensures made == StopIndex(attempts, RetryAttempts, true) + 1
    ensures result == EventsOf(AttemptResult(attempts[made - 1], true))
    ensures delays == Backoff(made - 1)
  {
    var data;
    data, made, delays := MakeApiRequest(attempts, RetryAttempts, true);
    result := EventsOf(data);
  }

  /** A first answer that is JSON but not an array fails with a null status, after one attempt. */
  lemma SchemaErrorIsNotRetried(body: Value, status: int, rest: seq<Attempt>)
    requires IsOk(status) && !body.Arr? && RetryAttempts < |rest| + 1
    ensures var attempts := [Received(Response(status, Json(body)))] + rest;
      && StopIndex(attempts, RetryAttempts, true) == 0
      && EventsOf(AttemptResult(attempts[0], true)) == Failure(ApiError("Invalid API response: expected array of events", None))
  {
  }

  /** Reading `.id` of the value does not throw: it is neither null nor undefined. */
  predicate Readable(e: Value) {
    !e.Null? && !e.Undefined?
  }

  /** `find` reads e and goes on past it: e is readable and has another id. */
  predicate PassedOver(e: Value, eventId: Value) {
    Readable(e) && Field(e, "id") != eventId
  }

  /**
   * `events.find((e) => e.id === eventId)`: the scan stops at the first
   * element that either has the id (found) or is null or undefined (reading
   * `.id` throws a TypeError); past the end nothing is found.
   */
  function FindEvent(events: seq<Value>, eventId: Value): (r: Result<Option<Value>, Error>)
    ensures (forall e <- events :: PassedOver(e, eventId)) ==> r == Success(None)
    ensures forall i :: 0 <= i < |events| && (forall j :: 0 <= j < i ==> PassedOver(events[j], eventId)) ==>
      && (!Readable(events[i]) ==> r.Failure? && r.error.PlainError?)
      && (Readable(events[i]) && Field(events[i], "id") == eventId ==> r == Success(Some(events[i])))
    ensures r.Success? && r.value.Some? ==> r.value.value in events && Field(r.value.value, "id") == eventId
    ensures r == Success(None) ==> forall e <- events :: PassedOver(e, eventId)
  {
    if events == [] then Success(None)
    else
      assert events[0] in events;
      if !Readable(events[0]) then
        Failure(PlainError("Cannot read properties of " + Text(events[0]) + " (reading 'id')"))
      else if Field(events[0], "id") == eventId then Success(Some(events[0]))
      else
        var r := FindEvent(events[1..], eventId);
        assert forall i :: 1 <= i < |events| ==> events[i] == events[1..][i - 1];
        r
  }

  /** With no null or undefined element, the lookup never throws. */
  lemma {:induction false} ReadableEventsNeverThrow(events: seq<Value>, eventId: Value)
    requires forall e <- events :: Readable(e)
    ensures FindEvent(events, eventId).Success?
  {
    if events != [] && Field(events[0], "id") != eventId {
      assert events[0] in events;
      assert forall e <- events[1..] :: e in events;
      ReadableEventsNeverThrow(events[1..], eventId);
    }
  }

  /**
   * `fetchEventById`: the first event with the id; a 404 ApiError when there
   * is none or it is falsy; fetch errors and the lookup's TypeError pass
   * through.
   */
  method FetchEventById(attempts: seq<Attempt>, eventId: Value) returns (result: Result<Value, Error>)
    requires RetryAttempts < |attempts|
    ensures result.Success? ==> Field(result.value, "id") == eventId && Truthy(result.value)
    ensures var fetched := EventsOf(AttemptResult(attempts[StopIndex(attempts, RetryAttempts, true)], true));
      && (fetched.Failure? ==> result == Failure(fetched.error))
      && (fetched.Success? ==>
            var found := FindEvent(fetched.value, eventId);
            && (found.Failure? ==> result == Failure(found.error))
            && (found.Success? && found.value.Some? && Truthy(found.value.value) ==> result == Success(found.value.value))
            && (found.Success? && (found.value.None? || !Truthy(found.value.value)) ==> result == NotFound(eventId)))
    ensures var fetched := EventsOf(AttemptResult(attempts[StopIndex(attempts, RetryAttempts, true)], true));
      fetched.Success? && (forall e <- fetched.value :: PassedOver(e, eventId)) ==> result == NotFound(eventId)
  {
    var events, _, _ := FetchSportsEvents(attempts);
    if events.Failure? {
      return Failure(events.error);
    }
    var found := FindEvent(events.value, eventId);
    if found.Failure? {
      return Failure(found.error);
    }
    if found.value.None? || !Truthy(found.value.value) {
      return NotFound(eventId);
    }
    result := Success(found.value.value);
  }

  /** `new ApiError(`Event with ID ${eventId} not found`, 404)` */
  function NotFound(eventId: Value): Result<Value, Error> {
    Failure(ApiError("Event with ID " + Text(eventId) + " not found", Some(404)))
  }

  /** A HEAD request is answered without a body: `response.json()` then rejects. */
  function AsHeadAttempt(a: Attempt): Attempt {
    match a
    case Received(Response(status, _)) => Received(Response(status, Unparseable("Unexpected end of JSON input")))
    case _ => a
  }

  function AsHeadAttempts(attempts: seq<Attempt>): (r: seq<Attempt>)
    ensures |r| == |attempts| && forall k :: 0 <= k < |r| ==> r[k] == AsHeadAttempt(attempts[k])
  {
    seq(|attempts|, k requires 0 <= k < |attempts| => AsHeadAttempt(attempts[k]))
  }

  /**
   * `checkApiHealth` as written: a HEAD request through `makeApiRequest`,
   * which reads every successful body as JSON. A HEAD answer has no body, so
   * no attempt can succeed and the probe never reports a healthy endpoint.
   */
  method CheckApiHealthAsWritten(attempts: seq<Attempt>) returns (healthy: bool, made: nat)
    requires RetryAttempts < |attempts|
    ensures !healthy
    ensures made == StopIndex(AsHeadAttempts(attempts), RetryAttempts, true) + 1
  {
    var r, delays;
    r, made, delays := MakeApiRequest(AsHeadAttempts(attempts), RetryAttempts, true);
    healthy := r.Success?;
  }

  /** Even an endpoint that answers every attempt with 200 is probed four times and reported unhealthy. */
  lemma HealthyEndpointReportedDown(attempts: seq<Attempt>)
    requires RetryAttempts < |attempts|
    requires forall k :: 0 <= k < |attempts| ==> attempts[k].Received? && attempts[k].response.status == 200
    ensures StopIndex(AsHeadAttempts(attempts), RetryAttempts, true) == RetryAttempts
    ensures Backoff(RetryAttempts) == [1000, 2000, 3000]
  {
    var head := AsHeadAttempts(attempts);
    StopIndexCharacterized(head, RetryAttempts, true);
    assert !Settles(head[0], true) && !Settles(head[1], true) && !Settles(head[2], true);
  }

  /**
   * `checkApiHealth` as intended: the probe does not read a body, so it
   * reports healthy exactly when the attempt that ends the loop got a 2xx
   * answer; it never throws.
   */
  method CheckApiHealth(attempts: seq<Attempt>) returns (healthy: bool, made: nat)
    requires RetryAttempts < |attempts|
    ensures made == StopIndex(AsHeadAttempts(attempts), RetryAttempts, false) + 1
    ensures healthy <==> attempts[made - 1].Received? && IsOk(attempts[made - 1].response.status)
  {
    var r, delays;
    r, made, delays := MakeApiRequest(AsHeadAttempts(attempts), RetryAttempts, false);
    healthy := r.Success?;
  }

  /** An endpoint whose first answer is 2xx is reported healthy after one attempt. */
  lemma FirstOkAnswerIsHealthy(attempts: seq<Attempt>)
    requires RetryAttempts < |attempts|
    requires attempts[0].Received? && IsOk(attempts[0].response.status)
    ensures StopIndex(AsHeadAttempts(attempts), RetryAttempts, false) == 0
  {
  }
}
