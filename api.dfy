/** The HTTP client's interceptors: the request side attaches the bearer token; the response
    side turns a 401 into a single token refresh while later 401s wait in a FIFO queue, and
    error responses are turned into one message for the user.

    The asynchronous flow is modelled as two explicit events: a failed response reaching the
    interceptor (`OnResponseError`) and the refresh call coming back (`OnRefreshResponse`).
    `Session` is the specification of the state those events change; the class `Interceptor`
    holds the same state in mutable fields, as the module-level variables do. */
module Api {
  import opened Wrappers
  import opened Strings
  import Storage

  const AuthHeaderPrefix := "Bearer"
  const LoginRoute := "/login"
  const RefreshEndpoint := "/admin/auth/refresh"
  const LoginEndpoint := "/admin/auth/login"
  /** Unauthorized, section 15.5.2 of RFC 9110. */
  const HttpUnauthorized := 401
  const DefaultErrorMessage := "An unexpected error occurred"
  const NetworkErrorMessage := "Unable to connect to server. Please check your connection."
  const NoRefreshTokenMessage := "No refresh token available"

  /** The parts of a request configuration the interceptors read or write. */
  datatype RequestConfig = RequestConfig(url: Option<string>, authorization: Option<string>, retry: bool)

  datatype FieldError = FieldError(field: Option<string>, message: string)

  /** The error body the API sends; `errors` is `None` when it is missing or not an array. */
  datatype ApiErrorBody = ApiErrorBody(message: Option<string>, errors: Option<seq<FieldError>>)

  datatype ErrorResponse = ErrorResponse(status: int, data: Option<ApiErrorBody>)

  /** An axios error: its own message, the request that failed, and the response if one came. */
  datatype AxiosError = AxiosError(message: string, config: RequestConfig, response: Option<ErrorResponse>)

  /** Whatever a caller caught: an axios error or something else. */
  datatype Thrown = Axios(error: AxiosError) | NotAxios

  /** Why a promise was rejected: the original axios error or an `Error` with a message. */
  datatype Reason = AxiosReason(error: AxiosError) | ErrorReason(message: string)

  /** The outcome of the refresh call: the new token pair, or the error it failed with. */
  datatype RefreshResponse = Refreshed(accessToken: string, refreshToken: string) | RefreshFailed(reason: Reason)

  // ---------------------------------------------------------------------------------------
  // Request side

  /** The `Authorization` value for a token: the scheme, one space, the token
      (section 2.1 of RFC 6750). */
  function BearerHeader(token: string): string {
    AuthHeaderPrefix + " " + token
  }

  /** Reads a bearer token back out of an `Authorization` value. */
  function ParseBearer(header: string): Option<string> {
    if StartsWith(header, AuthHeaderPrefix + " ") then Some(header[|AuthHeaderPrefix| + 1..]) else None
  }

  /** The header carries the token unchanged. */
  lemma BearerRoundTrip(token: string)
    ensures ParseBearer(BearerHeader(token)) == Some(token)
  {
    assert BearerHeader(token)[..7] == "Bearer ";
  }

  /** A JavaScript-truthy optional string: present and non-empty. */
  predicate Truthy(s: Option<string>) {
    s.Some? && s.value != ""
  }

  /** `attachAuthToken` against the stored table: a stored, non-empty access token is sent as
      a bearer header; otherwise the request goes out as it came. */
  function WithAuthHeader(request: RequestConfig, items: map<string, string>): (r: RequestConfig)
    ensures r.url == request.url && r.retry == request.retry
    ensures Truthy(Storage.Lookup(items, Storage.AccessTokenKey)) ==>
      r.authorization.Some? && ParseBearer(r.authorization.value) == Storage.Lookup(items, Storage.AccessTokenKey)
    ensures !Truthy(Storage.Lookup(items, Storage.AccessTokenKey)) ==> r == request
  {
    var accessToken := Storage.Lookup(items, Storage.AccessTokenKey);
    if Truthy(accessToken) then
      BearerRoundTrip(accessToken.value);
      request.(authorization := Some(BearerHeader(accessToken.value)))
    else request
  }

  // ---------------------------------------------------------------------------------------
  // Response side: the refresh state machine

  /** A request parked in `requestQueue` until the refresh settles; `id` tells waiters apart. */
  datatype Waiter = Waiter(id: nat, request: RequestConfig)

  /** What `processRequestQueue` did to a waiter: `resolve(token)` or `reject(error)`. */
  datatype Settlement = Resolved(token: Option<string>) | Rejected(reason: Reason)

  datatype Settled = Settled(waiter: Waiter, outcome: Settlement)

  /** What the interceptor's promise does for the request that reached it. */
  datatype Outcome =
    | Reject(reason: Reason)              // the promise is rejected
    | Enqueued(waiter: nat)               // the promise waits in the queue
    | RefreshRequested(refreshToken: string)  // the refresh call is sent; the promise waits for it
    | Retry(request: RequestConfig)       // the request is sent again

  /** The interceptor's state: the `isRefreshingToken` flag, the `requestQueue`, the request
      whose 401 started the refresh now awaited, the next waiter id, the settlements made so
      far, where the window was sent (`None` until a redirect), and `localStorage`. */
  datatype Session = Session(
    refreshing: bool,
    queue: seq<Waiter>,
    inFlight: Option<RequestConfig>,
    nextWaiter: nat,
    settled: seq<Settled>,
    location: Option<string>,
    items: map<string, string>)

  /** The state when the module is loaded. */
  function Initial(items: map<string, string>): Session {
    Session(false, [], None, 0, [], None, items)
  }

  /** The interceptor's invariant: a refresh is in flight exactly while the flag is set;
      nobody waits when no refresh is in flight; waiters and settlements carry strictly
      increasing ids below `nextWaiter`, and everything settled came before everything still
      waiting, so no waiter is ever settled twice. */
  ghost predicate Valid(s: Session) {
    && (s.refreshing <==> s.inFlight.Some?)
    && (s.inFlight.Some? ==> s.inFlight.value.retry)
    && (!s.refreshing ==> s.queue == [])
    && (forall i :: 0 <= i < |s.queue| ==> s.queue[i].id < s.nextWaiter)
    && (forall i :: 0 <= i < |s.settled| ==> s.settled[i].waiter.id < s.nextWaiter)
    && (forall i, j :: 0 <= i < j < |s.queue| ==> s.queue[i].id < s.queue[j].id)
    && (forall i, j :: 0 <= i < j < |s.settled| ==> s.settled[i].waiter.id < s.settled[j].waiter.id)
    && (forall i, j :: 0 <= i < |s.settled| && 0 <= j < |s.queue| ==> s.settled[i].waiter.id < s.queue[j].id)
  }

  /** `isAuthEndpoint`: the URL is present and names the login or the refresh endpoint. */
  predicate IsAuthEndpoint(url: Option<string>) {
    url.Some? && (Contains(url.value, LoginEndpoint) || Contains(url.value, RefreshEndpoint))
  }

  /** A request without a URL is never an auth endpoint; a URL is one exactly when the login
      or the refresh path occurs somewhere in it, so any URL that embeds either path is one,
      whatever base URL or query surrounds it, and any other URL is not. */
  lemma AuthEndpointUrls(url: string, base: string, rest: string)
    ensures !IsAuthEndpoint(None)
    ensures IsAuthEndpoint(Some(url)) <==>
      (exists i :: OccursAt(url, LoginEndpoint, i)) || (exists i :: OccursAt(url, RefreshEndpoint, i))
    ensures IsAuthEndpoint(Some(base + LoginEndpoint + rest))
    ensures IsAuthEndpoint(Some(base + RefreshEndpoint + rest))
  {
    ContainsIffOccurs(url, LoginEndpoint);
    ContainsIffOccurs(url, RefreshEndpoint);
    ContainsInfix(base, LoginEndpoint, rest);
    ContainsInfix(base, RefreshEndpoint, rest);
  }

  /** The response carries status 401. */
  predicate IsUnauthorized(e: AxiosError) {
    e.response.Some? && e.response.value.status == HttpUnauthorized
  }

  /** One settlement per waiter, in queue order. */
  function SettleAll(queue: seq<Waiter>, outcome: Settlement): (r: seq<Settled>)
    ensures |r| == |queue|
    ensures forall i :: 0 <= i < |r| ==> r[i] == Settled(queue[i], outcome)
  {
    seq(|queue|, i requires 0 <= i < |queue| => Settled(queue[i], outcome))
  }

  /** How `processRequestQueue(error, token)` settles one waiter. */
  function SettlementFor(error: Option<Reason>, token: Option<string>): Settlement {
    if error.Some? then Rejected(error.value) else Resolved(token)
  }

  /** `processRequestQueue(error, token)`: settles every waiter in order and empties the queue. */
  function Drain(s: Session, error: Option<Reason>, token: Option<string>): Session {
    s.(settled := s.settled + SettleAll(s.queue, SettlementFor(error, token)), queue := [])
  }

  /** `redirectToLogin`: clears the session keys and sends the window to the login route. */
  function RedirectedToLogin(s: Session): Session {
    s.(items := Storage.Cleared(s.items), location := Some(LoginRoute))
  }

  /** The synchronous start of `refreshAccessToken`, corrected so that the flag is also reset
      when there is no refresh token to send. */
  function StartRefresh(s: Session, request: RequestConfig): (Session, Outcome) {
    var refreshToken := Storage.Lookup(s.items, Storage.RefreshTokenKey);
    if !Truthy(refreshToken) then
      (RedirectedToLogin(s).(refreshing := false), Reject(ErrorReason(NoRefreshTokenMessage)))
    else
      (s.(inFlight := Some(request)), RefreshRequested(refreshToken.value))
  }

  /** The synchronous start of `refreshAccessToken` as the source has it: the early return
      for a missing refresh token comes before the `try`, so its `finally` does not run and
      the flag stays set. */
  function StartRefreshAsWritten(s: Session, request: RequestConfig): (Session, Outcome) {
    var refreshToken := Storage.Lookup(s.items, Storage.RefreshTokenKey);
    if !Truthy(refreshToken) then
      (RedirectedToLogin(s), Reject(ErrorReason(NoRefreshTokenMessage)))
    else
      (s.(inFlight := Some(request)), RefreshRequested(refreshToken.value))
  }

  /** `handleUnauthorizedError` up to its first `await`: anything but a first 401 is passed
      on; a 401 from the login or refresh endpoint ends the session; a 401 during a refresh
      waits in the queue; any other 401 marks its request as retried, sets the flag and
      starts the refresh. The start is the corrected `StartRefresh`, which also clears the
      flag when no refresh token is stored; `StartRefreshAsWritten` is the source's own. */
  function OnResponseError(s: Session, e: AxiosError): (Session, Outcome) {
    var request := e.config;
    if !IsUnauthorized(e) || request.retry then
      (s, Reject(AxiosReason(e)))
    else if IsAuthEndpoint(request.url) then
      (RedirectedToLogin(s), Reject(AxiosReason(e)))
    else if s.refreshing then
      (s.(queue := s.queue + [Waiter(s.nextWaiter, request)], nextWaiter := s.nextWaiter + 1),
       Enqueued(s.nextWaiter))
    else
      StartRefresh(s.(refreshing := true), request.(retry := true))
  }

  /** The rest of `refreshAccessToken`, once the refresh call has come back: on success
      the new tokens are stored, every waiter is resolved with the new access token and the
      original request is retried with it; on failure every waiter is rejected with the
      refresh error, the session is ended and the original request is rejected. Either way
      the flag is cleared (the `finally`). */
  function OnRefreshResponse(s: Session, response: RefreshResponse): (Session, Outcome)
    requires s.inFlight.Some?
  {
    var request := s.inFlight.value;
    match response
    case Refreshed(accessToken, refreshToken) =>
      var saved := s.(items := Storage.WithTokens(s.items, accessToken, refreshToken));
      var drained := Drain(saved, None, Some(accessToken));
      (drained.(refreshing := false, inFlight := None),
       Retry(request.(authorization := Some(BearerHeader(accessToken)))))
    case RefreshFailed(reason) =>
      var ended := RedirectedToLogin(Drain(s, Some(reason), None));
      (ended.(refreshing := false, inFlight := None), Reject(reason))
  }

  /** The `.then` of `queueFailedRequest`: a resolved waiter sends its request again with the
      token it was given as bearer header (`null` is spelled out, as a template string does);
      a rejected waiter's promise is rejected with the same reason. */
  function WaiterContinuation(settled: Settled): Outcome {
    match settled.outcome
    case Resolved(token) =>
      Retry(settled.waiter.request.(authorization := Some(BearerHeader(token.GetOr("null")))))
    case Rejected(reason) => Reject(reason)
  }

  /** The module starts in a valid state. */
  lemma InitialIsValid(items: map<string, string>)
    ensures Valid(Initial(items))
  {
  }

  /** Every failed response keeps the invariant. */
  lemma ResponseErrorKeepsValid(s: Session, e: AxiosError)
    requires Valid(s)
    ensures Valid(OnResponseError(s, e).0)
  {
    var request := e.config;
    if IsUnauthorized(e) && !request.retry && !IsAuthEndpoint(request.url) && s.refreshing {
      var s' := OnResponseError(s, e).0;
      assert s'.queue == s.queue + [Waiter(s.nextWaiter, request)];
      assert forall i :: 0 <= i < |s'.queue| ==> s'.queue[i].id < s'.nextWaiter;
    }
  }

  /** Draining a valid session settles the waiters after everything settled before, so the
      settled ids keep increasing and stay below `nextWaiter`. */
  lemma DrainKeepsIdsIncreasing(s: Session, error: Option<Reason>, token: Option<string>)
    requires Valid(s)
    ensures var d := Drain(s, error, token);
      && d.queue == []
      && (forall i :: 0 <= i < |d.settled| ==> d.settled[i].waiter.id < d.nextWaiter)
      && (forall i, j :: 0 <= i < j < |d.settled| ==> d.settled[i].waiter.id < d.settled[j].waiter.id)
  {
    var d := Drain(s, error, token);
    var n := |s.settled|;
    assert forall i :: n <= i < |d.settled| ==> d.settled[i].waiter == s.queue[i - n];
    assert forall i :: 0 <= i < n ==> d.settled[i] == s.settled[i];
    forall i, j | 0 <= i < j < |d.settled|
      ensures d.settled[i].waiter.id < d.settled[j].waiter.id
    {
      if i >= n {
        assert s.queue[i - n].id < s.queue[j - n].id;
      } else if j >= n {
        assert s.settled[i].waiter.id < s.queue[j - n].id;
      }
    }
  }

  /** The refresh response keeps the invariant. */
  lemma RefreshResponseKeepsValid(s: Session, response: RefreshResponse)
    requires Valid(s) && s.inFlight.Some?
    ensures Valid(OnRefreshResponse(s, response).0)
  {
    match response
    case Refreshed(accessToken, refreshToken) =>
      var saved := s.(items := Storage.WithTokens(s.items, accessToken, refreshToken));
      DrainKeepsIdsIncreasing(saved, None, Some(accessToken));
    case RefreshFailed(reason) =>
      DrainKeepsIdsIncreasing(s, Some(reason), None);
  }

  /** How each kind of failed response is routed. Anything but a first 401 is rejected
      unchanged and changes nothing. A 401 from an auth endpoint ends the session and starts
      no refresh. A 401 during a refresh adds exactly one waiter at the back of the queue and
      starts no second refresh. Any other 401 starts a refresh when a refresh token is stored,
      with the flag set and the request marked as retried, and otherwise ends the session
      with the flag cleared. No failed response settles a waiter. */
  lemma ResponseErrorRouting(s: Session, e: AxiosError)
    requires Valid(s)
    ensures var (s', o) := OnResponseError(s, e);
      && s'.settled == s.settled
      && (!IsUnauthorized(e) || e.config.retry ==> s' == s && o == Reject(AxiosReason(e)))
      && (IsUnauthorized(e) && !e.config.retry && IsAuthEndpoint(e.config.url) ==>
            && o == Reject(AxiosReason(e))
            && s'.items == Storage.Cleared(s.items) && s'.location == Some(LoginRoute)
            && s'.refreshing == s.refreshing && s'.queue == s.queue && s'.inFlight == s.inFlight)
      && (IsUnauthorized(e) && !e.config.retry && !IsAuthEndpoint(e.config.url) && s.refreshing ==>
            && o == Enqueued(s.nextWaiter)
            && s'.queue == s.queue + [Waiter(s.nextWaiter, e.config)]
            && s'.refreshing && s'.inFlight == s.inFlight && s'.items == s.items)
      && (IsUnauthorized(e) && !e.config.retry && !IsAuthEndpoint(e.config.url) && !s.refreshing ==>
            var stored := Storage.Lookup(s.items, Storage.RefreshTokenKey);
            && s'.queue == []
            && (Truthy(stored) ==>
                  && o == RefreshRequested(stored.value)
                  && s'.refreshing && s'.inFlight == Some(e.config.(retry := true))
                  && s'.items == s.items)
            && (!Truthy(stored) ==>
                  && o == Reject(ErrorReason(NoRefreshTokenMessage))
                  && !s'.refreshing && s'.inFlight == None
                  && s'.items == Storage.Cleared(s.items) && s'.location == Some(LoginRoute)))
      && (o.RefreshRequested? ==> !s.refreshing)
  {
  }

  /** When the refresh comes back, every waiter is settled exactly once, in queue order, the
      queue is empty and the flag is cleared. On success the tokens are stored, every waiter
      is resolved with the new access token, and both the original request and every waiter
      are retried carrying that stored token. On failure every waiter is rejected with the
      refresh error, the session keys are cleared and the window goes to the login route. */
  lemma RefreshSettlesEveryWaiter(s: Session, response: RefreshResponse)
    requires Valid(s) && s.inFlight.Some?
    ensures var (s', o) := OnRefreshResponse(s, response);
      && s'.queue == [] && !s'.refreshing && s'.inFlight == None
      && |s'.settled| == |s.settled| + |s.queue|
      && s'.settled[..|s.settled|] == s.settled
      && (forall i :: 0 <= i < |s.queue| ==> s'.settled[|s.settled| + i].waiter == s.queue[i])
      && (forall i :: 0 <= i < |s.queue| ==>
            forall j :: 0 <= j < |s'.settled| && s'.settled[j].waiter == s.queue[i] ==> j == |s.settled| + i)
      && (response.Refreshed? ==>
            var token := Storage.Lookup(s'.items, Storage.AccessTokenKey);
            && token == Some(response.accessToken)
            && Storage.Lookup(s'.items, Storage.RefreshTokenKey) == Some(response.refreshToken)
            && o == Retry(s.inFlight.value.(authorization := Some(BearerHeader(response.accessToken))))
            && o.request.retry
            && ParseBearer(o.request.authorization.value) == token
            && (forall i :: |s.settled| <= i < |s'.settled| ==>
                  && s'.settled[i].outcome == Resolved(token)
                  && WaiterContinuation(s'.settled[i]) ==
                       Retry(s'.settled[i].waiter.request.(authorization := Some(BearerHeader(response.accessToken))))
                  && ParseBearer(WaiterContinuation(s'.settled[i]).request.authorization.value) == token))
      && (response.RefreshFailed? ==>
            && o == Reject(response.reason)
            && s'.items == Storage.Cleared(s.items) && s'.location == Some(LoginRoute)
            && (forall i :: |s.settled| <= i < |s'.settled| ==>
                  s'.settled[i].outcome == Rejected(response.reason)
                  && WaiterContinuation(s'.settled[i]) == Reject(response.reason)))
  {
    var (s', o) := OnRefreshResponse(s, response);
    var outcome := if response.Refreshed? then Resolved(Some(response.accessToken)) else Rejected(response.reason);
    assert s'.settled == s.settled + SettleAll(s.queue, outcome);
    forall i, j | 0 <= i < |s.queue| && 0 <= j < |s'.settled| && j != |s.settled| + i
      ensures s'.settled[j].waiter.id != s.queue[i].id
    {
      if j < |s.settled| {
        assert s'.settled[j] == s.settled[j];
      } else {
        var k := j - |s.settled|;
        assert s'.settled[j].waiter == s.queue[k];
        if k < i {
          assert s.queue[k].id < s.queue[i].id;
        } else {
          assert s.queue[i].id < s.queue[k].id;
        }
      }
    }
    if response.Refreshed? {
      BearerRoundTrip(response.accessToken);
    }
  }

  /** The source as written: with no refresh token stored, the first 401 ends the session but
      leaves the flag set with no refresh in flight, breaking the invariant; every later 401
      (before the page actually unloads) is parked in the queue, and since no refresh is in
      flight no response can ever settle it. */
  lemma AsWrittenMissingTokenStrandsWaiters(s: Session, first: AxiosError, later: AxiosError)
    requires Valid(s) && !s.refreshing
    requires !Truthy(Storage.Lookup(s.items, Storage.RefreshTokenKey))
    requires IsUnauthorized(first) && !first.config.retry && !IsAuthEndpoint(first.config.url)
    requires IsUnauthorized(later) && !later.config.retry && !IsAuthEndpoint(later.config.url)
    ensures var (s1, o1) := StartRefreshAsWritten(s.(refreshing := true), first.config.(retry := true));
      && o1 == Reject(ErrorReason(NoRefreshTokenMessage))
      && s1.refreshing && s1.inFlight.None?
      && !Valid(s1)
      && OnResponseError(s1, later).1 == Enqueued(s1.nextWaiter)
      && OnResponseError(s1, later).0.inFlight.None?
  {
  }

  /** The same start, corrected: the flag is cleared, the invariant holds, and a later 401
      starts a fresh attempt instead of waiting forever. */
  lemma CorrectedMissingTokenResetsFlag(s: Session, first: AxiosError, later: AxiosError)
    requires Valid(s) && !s.refreshing
    requires !Truthy(Storage.Lookup(s.items, Storage.RefreshTokenKey))
    requires IsUnauthorized(first) && !first.config.retry && !IsAuthEndpoint(first.config.url)
    requires IsUnauthorized(later) && !later.config.retry && !IsAuthEndpoint(later.config.url)
    ensures var (s1, o1) := OnResponseError(s, first);
      && o1 == Reject(ErrorReason(NoRefreshTokenMessage))
      && !s1.refreshing && s1.inFlight.None?
      && Valid(s1)
      && !OnResponseError(s1, later).1.Enqueued?
  {
    ResponseErrorKeepsValid(s, first);
  }

  // ---------------------------------------------------------------------------------------
  // Error messages

  /** `extractErrorMessages`: the field messages, in order, separated by `", "`. */
  function ExtractErrorMessages(errors: seq<FieldError>): string {
    Join(seq(|errors|, i requires 0 <= i < |errors| => errors[i].message), ", ")
  }

  /** `parseApiError`: no response means a network failure; otherwise the body's message,
      then the field messages, then the error's own message, then the default. */
  function ParseApiError(e: AxiosError): string {
    if e.response.None? then NetworkErrorMessage
    else
      var body := e.response.value.data;
      if body.Some? && Truthy(body.value.message) then body.value.message.value
      else if body.Some? && body.value.errors.Some? && |body.value.errors.value| > 0 then
        ExtractErrorMessages(body.value.errors.value)
      else if e.message != "" then e.message
      else DefaultErrorMessage
  }

  /** `handleApiError`: anything but an axios error gives the default message. */
  function HandleApiError(thrown: Thrown): string {
    match thrown
    case NotAxios => DefaultErrorMessage
    case Axios(e) => ParseApiError(e)
  }

  /** The response body carries a non-empty `message`. */
  predicate HasBodyMessage(e: AxiosError) {
    e.response.Some? && e.response.value.data.Some? && Truthy(e.response.value.data.value.message)
  }

  /** The response body carries a non-empty array of field errors. */
  predicate HasFieldErrors(e: AxiosError) {
    && e.response.Some? && e.response.value.data.Some?
    && e.response.value.data.value.errors.Some? && |e.response.value.data.value.errors.value| > 0
  }

  /** The message comes from the first source, in priority order, that has one: the network
      message without a response; the body's non-empty message; the field messages joined by
      `", "` in order (the first opens the text, and the text is their lengths plus two characters per
      separator); the error's own non-empty message; the default when none exists. */
  lemma ApiErrorPriority(e: AxiosError)
    ensures e.response.None? ==> HandleApiError(Axios(e)) == NetworkErrorMessage
    ensures HasBodyMessage(e) ==> HandleApiError(Axios(e)) == e.response.value.data.value.message.value
    ensures e.response.Some? && !HasBodyMessage(e) && HasFieldErrors(e) ==>
      var errors := e.response.value.data.value.errors.value;
      && HandleApiError(Axios(e)) == Join(seq(|errors|, i requires 0 <= i < |errors| => errors[i].message), ", ")
      && StartsWith(HandleApiError(Axios(e)), errors[0].message)
      && |HandleApiError(Axios(e))| ==
           TotalLength(seq(|errors|, i requires 0 <= i < |errors| => errors[i].message)) + 2 * (|errors| - 1)
    ensures e.response.Some? && !HasBodyMessage(e) && !HasFieldErrors(e) && e.message != "" ==>
      HandleApiError(Axios(e)) == e.message
    ensures e.response.Some? && !HasBodyMessage(e) && !HasFieldErrors(e) && e.message == "" ==>
      HandleApiError(Axios(e)) == DefaultErrorMessage
    ensures HandleApiError(NotAxios) == DefaultErrorMessage
  {
    if e.response.Some? && !HasBodyMessage(e) && HasFieldErrors(e) {
      var errors := e.response.value.data.value.errors.value;
      var messages := seq(|errors|, i requires 0 <= i < |errors| => errors[i].message);
      JoinLength(messages, ", ");
      if |messages| > 1 {
        assert Join(messages, ", ") == messages[0] + ", " + Join(messages[1..], ", ");
        assert Join(messages, ", ")[..|messages[0]|] == messages[0];
      }
    }
  }

  /** The message is empty exactly when the only thing to show is a single field error with
      an empty message; every other path yields a non-empty text. */
  lemma EmptyMessageIff(thrown: Thrown)
    ensures HandleApiError(thrown) == "" <==>
      && thrown.Axios? && thrown.error.response.Some?
      && thrown.error.response.value.data.Some?
      && !Truthy(thrown.error.response.value.data.value.message)
      && thrown.error.response.value.data.value.errors.Some?
      && |thrown.error.response.value.data.value.errors.value| == 1
      && thrown.error.response.value.data.value.errors.value[0].message == ""
  {
    if thrown.Axios? && thrown.error.response.Some? && thrown.error.response.value.data.Some? {
      var body := thrown.error.response.value.data.value;
      if body.errors.Some? {
        var errors := body.errors.value;
        var messages := seq(|errors|, i requires 0 <= i < |errors| => errors[i].message);
        JoinEmptyIff(messages, ", ");
        if |errors| == 1 {
          assert messages == [errors[0].message];
        }
      }
    }
  }

  // ---------------------------------------------------------------------------------------
  // The module-level state, changed in place

  /** The interceptors' module state (`isRefreshingToken`, `requestQueue`) with the browser
      state they touch: the pending refresh, the waiters' settlements, the window location
      and `localStorage`. */
  class Interceptor {
    var isRefreshingToken: bool
    var requestQueue: seq<Waiter>
    var inFlight: Option<RequestConfig>
    var nextWaiter: nat
    var settled: seq<Settled>
    var location: Option<string>
    const storage: Storage.LocalStorage

    /** The state as a `Session` value. */
    ghost function State(): Session
      reads this, storage
    {
      Session(isRefreshingToken, requestQueue, inFlight, nextWaiter, settled, location, storage.items)
    }

    constructor (storage: Storage.LocalStorage)
      ensures this.storage == storage
      ensures State() == Initial(storage.items) && Valid(State())
    {
      this.storage := storage;
      isRefreshingToken := false;
      requestQueue := [];
      inFlight := None;
      nextWaiter := 0;
      settled := [];
      location := None;
    }

    /** `attachAuthToken`: reads the stored access token and changes nothing. */
    method AttachAuthToken(request: RequestConfig) returns (r: RequestConfig)
      ensures r == WithAuthHeader(request, storage.items)
    {
      var accessToken := storage.GetAccessToken();
      r := request;
      if accessToken.Some? && accessToken.value != "" {
        r := r.(authorization := Some(BearerHeader(accessToken.value)));
      }
    }

    /** `processRequestQueue`: one pass over the queue, rejecting every waiter when an error
        is given and otherwise resolving it with the token; then the queue is replaced by an
        empty one. */
    method ProcessRequestQueue(error: Option<Reason>, token: Option<string>)
      modifies this
      ensures State() == Drain(old(State()), error, token)
    {
      var i := 0;
      while i < |requestQueue|
        invariant 0 <= i <= |requestQueue|
        invariant settled == old(settled) + SettleAll(requestQueue[..i], SettlementFor(error, token))
        invariant requestQueue == old(requestQueue) && isRefreshingToken == old(isRefreshingToken)
        invariant inFlight == old(inFlight) && nextWaiter == old(nextWaiter) && location == old(location)
      {
        var request := requestQueue[i];
        if error.Some? {
          settled := settled + [Settled(request, Rejected(error.value))];
        } else {
          settled := settled + [Settled(request, Resolved(token))];
        }
        assert requestQueue[..i + 1] == requestQueue[..i] + [request];
        i := i + 1;
      }
      assert requestQueue[..i] == requestQueue;
      requestQueue := [];
    }

    /** `redirectToLogin`. */
    method RedirectToLogin()
      modifies this, storage
      ensures State() == RedirectedToLogin(old(State()))
    {
      storage.ClearAll();
      location := Some(LoginRoute);
    }

    /** `queueFailedRequest`: parks the request at the back of the queue. */
    method QueueFailedRequest(request: RequestConfig) returns (o: Outcome)
      modifies this
      ensures State() == old(State()).(queue := old(requestQueue) + [Waiter(old(nextWaiter), request)],
                                       nextWaiter := old(nextWaiter) + 1)
      ensures o == Enqueued(old(nextWaiter))
    {
      requestQueue := requestQueue + [Waiter(nextWaiter, request)];
      o := Enqueued(nextWaiter);
      nextWaiter := nextWaiter + 1;
    }

    /** `refreshAccessToken` up to the refresh call (corrected: the flag is cleared when there
        is no refresh token). */
    method RefreshAccessToken(request: RequestConfig) returns (o: Outcome)
      modifies this, storage
      ensures (State(), o) == StartRefresh(old(State()), request)
    {
      var refreshToken := storage.GetRefreshToken();
      if refreshToken.None? || refreshToken.value == "" {
        RedirectToLogin();
        isRefreshingToken := false;
        o := Reject(ErrorReason(NoRefreshTokenMessage));
        return;
      }
      inFlight := Some(request);
      o := RefreshRequested(refreshToken.value);
    }

    /** `handleUnauthorizedError`. */
    method HandleUnauthorizedError(e: AxiosError) returns (o: Outcome)
      modifies this, storage
      ensures (State(), o) == OnResponseError(old(State()), e)
    {
      var request := e.config;
      if !IsUnauthorized(e) || request.retry {
        return Reject(AxiosReason(e));
      }
      if IsAuthEndpoint(request.url) {
        RedirectToLogin();
        return Reject(AxiosReason(e));
      }
      if isRefreshingToken {
        o := QueueFailedRequest(request);
        return;
      }
      request := request.(retry := true);
      isRefreshingToken := true;
      o := RefreshAccessToken(request);
    }

    /** The refresh call has come back: the `try`/`catch`/`finally` of `refreshAccessToken`. */
    method CompleteRefresh(response: RefreshResponse) returns (o: Outcome)
      requires inFlight.Some?
      modifies this, storage
      ensures (State(), o) == OnRefreshResponse(old(State()), response)
    {
      var request := inFlight.value;
      match response {
        case Refreshed(accessToken, refreshToken) =>
          storage.SaveTokens(accessToken, refreshToken);
          request := request.(authorization := Some(BearerHeader(accessToken)));
          ProcessRequestQueue(None, Some(accessToken));
          o := Retry(request);
        case RefreshFailed(reason) =>
          ProcessRequestQueue(Some(reason), None);
          RedirectToLogin();
          o := Reject(reason);
      }
      isRefreshingToken := false;
      inFlight := None;
    }
  }
}
