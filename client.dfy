/** The API client's interceptors: the pending-request table that drops a
    duplicate request, the Authorization header, and the classification of
    failed requests into the shapes the pages receive. Events are applied one
    at a time; the network, timing logs and AbortController internals are
    outside the model. */
module Client {
  import opened Common

  /** A request as the interceptors see it. `id` stands for the identity of
      the config object; `verb` is the HTTP method; `params` is the JSON text of the query parameters,
      None when the request has none; `body` is the request body. */
  datatype Config = Config(id: nat, verb: string, url: string, params: Option<string>,
                           body: Option<string>, headers: map<string, string>)

  /** getRequestKey: the HTTP method, url and the parameters (or "{}"), joined by ':'. */
  function RequestKey(c: Config): (k: string)
    ensures StartsWith(k, c.verb + ":" + c.url + ":")
    ensures k[|c.verb| + |c.url| + 2..] == (if c.params.Some? then c.params.value else "{}")
  {
    c.verb + ":" + c.url + ":" + (if c.params.Some? then c.params.value else "{}")
  }

  /** The body and the headers are not part of the key: two requests to the
      same url with the same method and parameters collide. */
  lemma KeyIgnoresBody(a: Config, b: Config)
    requires a.verb == b.verb && a.url == b.url && a.params == b.params
    ensures RequestKey(a) == RequestKey(b)
  {
  }

  /** A request without parameters and one whose parameters are the empty
      object share a key. */
  lemma MissingParamsAreEmptyObject(c: Config)
    ensures RequestKey(c.(params := None)) == RequestKey(c.(params := Some("{}")))
  {
  }

  // ---------------------------------------------------------------------------
  // The request interceptor.

  /** The headers sent: a Bearer Authorization header exactly when a token is
      stored (a missing or empty token adds nothing); every other header is
      kept. */
  function Authorize(headers: map<string, string>, token: Option<string>): (r: map<string, string>)
    ensures "Authorization" in r <==> Truthy(token) || "Authorization" in headers
    ensures Truthy(token) ==> r["Authorization"] == "Bearer " + token.value
    ensures !Truthy(token) ==> r == headers
    ensures forall h :: h in headers && h != "Authorization" ==> h in r && r[h] == headers[h]
    ensures forall h :: h in r && h != "Authorization" ==> h in headers
  {
    if Truthy(token) then headers["Authorization" := "Bearer " + token.value] else headers
  }

  /** Whether the request is sent with an aborted signal: its key is pending. */
  predicate IsDuplicate(pending: map<string, nat>, c: Config) {
    RequestKey(c) in pending
  }

  /** The table after a request: a new key is recorded with its owner, a
      duplicate leaves the table as it was. */
  function AfterRequest(pending: map<string, nat>, c: Config): (r: map<string, nat>)
    ensures RequestKey(c) in r
    ensures IsDuplicate(pending, c) ==> r == pending
    ensures !IsDuplicate(pending, c) ==> r[RequestKey(c)] == c.id && r.Keys == pending.Keys + {RequestKey(c)}
    ensures forall k :: k in pending ==> k in r && r[k] == pending[k]
  {
    if IsDuplicate(pending, c) then pending else pending[RequestKey(c) := c.id]
  }

  /** The table after a successful response: its key is gone, every other
      entry stays. */
  function AfterResponse(pending: map<string, nat>, c: Config): (r: map<string, nat>)
    ensures RequestKey(c) !in r
    ensures forall k :: k in pending && k != RequestKey(c) ==> k in r && r[k] == pending[k]
    ensures r.Keys <= pending.Keys
  {
    pending - {RequestKey(c)}
  }

  // ---------------------------------------------------------------------------
  // Errors.

  datatype ResponseData = ResponseData(message: Option<string>, errors: Option<map<string, seq<string>>>)

  /** `data` is None when the response has no body. */
  datatype Response = Response(status: int, data: Option<ResponseData>)

  datatype ApiError = ApiError(name: string, code: Option<string>, config: Option<Config>,
                               response: Option<Response>)

  /** What the request's promise rejects with. */
  datatype Rejection =
    | Canceled(error: ApiError)
    | Validation(message: string, errors: Option<map<string, seq<string>>>)
    | Failure(message: string, status: Option<int>)
    | TypeError   // reading `errors` of a 422 response without a body throws

  const ValidationFailed := "Validation failed"
  const GenericError := "Bir hata olu\U{015F}tu"   // "Bir hata oluştu"
  const LoginPath := "/login"

  predicate IsCanceled(e: ApiError) {
    e.name == "AbortError" || e.code == Some("ERR_CANCELED")
  }

  predicate HasStatus(e: ApiError, status: int) {
    e.response.Some? && e.response.value.status == status
  }

  /** 401 handling runs for an error that is not a cancellation. */
  predicate LogsOut(e: ApiError) {
    !IsCanceled(e) && HasStatus(e, 401)
  }

  /** The rejection: a cancellation is passed on as it is; a 422 becomes a
      validation failure with the server's field errors; anything else (a 401
      included) carries the server's message, or a generic one when that is
      missing or empty, and the status if there was a response. */
  function Classify(e: ApiError): (r: Rejection)
    ensures r.Canceled? <==> IsCanceled(e)
    ensures r.Canceled? ==> r.error == e
    ensures r.Validation? <==> !IsCanceled(e) && HasStatus(e, 422) && e.response.value.data.Some?
    ensures r.TypeError? <==> !IsCanceled(e) && HasStatus(e, 422) && e.response.value.data.None?
    ensures r.Validation? ==> r.message == ValidationFailed && r.errors == e.response.value.data.value.errors
    ensures r.Failure? <==> !IsCanceled(e) && !HasStatus(e, 422)
    ensures r.Failure? ==> (r.status.Some? <==> e.response.Some?)
    ensures r.Failure? && e.response.Some? ==> r.status == Some(e.response.value.status)
    ensures r.Failure? ==> r.message != ""
    ensures r.Failure? && e.response.Some? && e.response.value.data.Some? && Truthy(e.response.value.data.value.message) ==>
      r.message == e.response.value.data.value.message.value
    ensures r.Failure? && !(e.response.Some? && e.response.value.data.Some? && Truthy(e.response.value.data.value.message)) ==>
      r.message == GenericError
  {
    if IsCanceled(e) then Canceled(e)
    else if HasStatus(e, 422) then
      if e.response.value.data.Some? then Validation(ValidationFailed, e.response.value.data.value.errors)
      else TypeError
    else
      var message := if e.response.Some? && e.response.value.data.Some? && Truthy(e.response.value.data.value.message)
                     then e.response.value.data.value.message.value else GenericError;
      Failure(message, if e.response.Some? then Some(e.response.value.status) else None)
  }

  /** The table after a failed request as written: the error's key is deleted
      whenever the error carries a config, even when that request is the
      aborted duplicate of another one still in flight. */
  function AfterErrorAsWritten(pending: map<string, nat>, e: ApiError): (r: map<string, nat>)
    ensures e.config.Some? ==> RequestKey(e.config.value) !in r
    ensures e.config.None? ==> r == pending
    ensures forall k :: k in pending && (e.config.None? || k != RequestKey(e.config.value)) ==>
      k in r && r[k] == pending[k]
    ensures r.Keys <= pending.Keys
  {
    if e.config.Some? then pending - {RequestKey(e.config.value)} else pending
  }

  /** The table after a failed request as intended: the key is deleted only
      when the failed request is the one that recorded it. */
  function AfterError(pending: map<string, nat>, e: ApiError): map<string, nat> {
    if e.config.Some? && RequestKey(e.config.value) in pending && pending[RequestKey(e.config.value)] == e.config.value.id
    then pending - {RequestKey(e.config.value)}
    else pending
  }

  /** Whether the error settles the request that owns `key`. */
  predicate Settles(pending: map<string, nat>, e: ApiError, key: string)
    requires key in pending
  {
    e.config.Some? && RequestKey(e.config.value) == key && e.config.value.id == pending[key]
  }

  /** The intended property: an entry stays, with its owner, through every
      failure except its owner's own, which removes it; nothing else changes. */
  lemma AfterErrorKeepsOwners(pending: map<string, nat>, e: ApiError)
    ensures forall k :: k in pending ==>
      ((k in AfterError(pending, e) && AfterError(pending, e)[k] == pending[k]) <==> !Settles(pending, e, k))
    ensures forall k :: k in pending && Settles(pending, e, k) ==> k !in AfterError(pending, e)
    ensures AfterError(pending, e).Keys <= pending.Keys
  {
  }

  // ---------------------------------------------------------------------------
  // The duplicate that reopens its key.

  /** Three requests with the same method, url and parameters. */
  function Original(): Config { Config(1, "get", "/tables", None, None, map[]) }
  function Duplicate(): Config { Original().(id := 2) }
  function Third(): Config { Original().(id := 3) }

  /** The cancellation axios reports for the aborted duplicate. */
  function DuplicateCanceled(): ApiError {
    ApiError("CanceledError", Some("ERR_CANCELED"), Some(Duplicate()), None)
  }

  /** As written: the original is sent and still pending, the duplicate is
      aborted, and its cancellation deletes the original's entry, so a third
      identical request is sent instead of being dropped. */
  lemma DuplicateReopensKey()
    ensures var p1 := AfterRequest(map[], Original());
      var p2 := AfterRequest(p1, Duplicate());
      var p3 := AfterErrorAsWritten(p2, DuplicateCanceled());
      !IsDuplicate(map[], Original()) && IsDuplicate(p1, Duplicate()) && !IsDuplicate(p3, Third())
  {
    var p1 := AfterRequest(map[], Original());
    assert RequestKey(Duplicate()) == RequestKey(Original());
    assert RequestKey(Third()) == RequestKey(Original());
  }

  /** As intended: the cancellation leaves the original's entry, and the third
      request is dropped until the original settles. */
  lemma DuplicateStaysDropped()
    ensures var p1 := AfterRequest(map[], Original());
      var p2 := AfterRequest(p1, Duplicate());
      var p3 := AfterError(p2, DuplicateCanceled());
      IsDuplicate(p1, Duplicate()) && IsDuplicate(p3, Third()) && p3 == p1
  {
    var p1 := AfterRequest(map[], Original());
    assert RequestKey(Duplicate()) == RequestKey(Original());
    assert RequestKey(Third()) == RequestKey(Original());
    assert p1[RequestKey(Original())] == 1;
  }

  // ---------------------------------------------------------------------------
  // The client.

  class ApiClient {
    /** pendingRequests: each pending key with the id of the request that
        recorded it. */
    var pending: map<string, nat>
    /** The stored auth token. */
    var token: Option<string>
    /** window.location.href as last assigned, None while untouched. */
    var location: Option<string>

    constructor(token: Option<string>)
      ensures pending == map[] && this.token == token && location == None
    {
      pending := map[];
      this.token := token;
      location := None;
    }

    /** The request interceptor: returns the request as sent and whether its
        signal is aborted. */
    method OnRequest(c: Config) returns (sent: Config, aborted: bool)
      modifies this
      ensures aborted == IsDuplicate(old(pending), c)
      ensures sent == c.(headers := Authorize(c.headers, token))
      ensures pending == AfterRequest(old(pending), c)
      ensures token == old(token) && location == old(location)
    {
      sent := c.(headers := Authorize(c.headers, token));
      var key := RequestKey(c);
      if key in pending {
        aborted := true;
      } else {
        pending := pending[key := c.id];
        aborted := false;
      }
    }

    /** The response interceptor on success. */
    method OnResponse(c: Config)
      modifies this
      ensures pending == AfterResponse(old(pending), c)
      ensures token == old(token) && location == old(location)
    {
      pending := pending - {RequestKey(c)};
    }

    /** The response interceptor on failure: the error's key is deleted as
        written, a 401 that is not a cancellation logs out and sends the
        browser to the login page, and the rejection is classified. */
    method OnError(e: ApiError) returns (r: Rejection)
      modifies this
      ensures pending == AfterErrorAsWritten(old(pending), e)
      ensures r == Classify(e)
      ensures LogsOut(e) ==> token == None && location == Some(LoginPath)
      ensures !LogsOut(e) ==> token == old(token) && location == old(location)
    {
      if e.config.Some? {
        var key := RequestKey(e.config.value);
        pending := pending - {key};
      }
      if IsCanceled(e) {
        r := Canceled(e);
        return;
      }
      if HasStatus(e, 401) {
        token := None;
        location := Some(LoginPath);
      }
      r := Classify(e);
    }
  }
}
