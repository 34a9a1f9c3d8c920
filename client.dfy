/**
  * The ENS REST client: the session-token refresh in `getToken`, the request
  * dispatch in `request` (token header, status classification) and the
  * endpoint methods that shape a decoded response into resources.
  *
  * The Guzzle client is a `Transport` function fixed at construction; the
  * PSR-16 cache is a value held in the `cache` field (`None` when no cache was
  * supplied) that the client's methods replace as they write to it; the wall
  * clock is the `now` parameter, in whole seconds. Each method of `Client` is
  * proved equal to a function of the state before the call (`TokenSpec`,
  * `RequestSpec`, `CallSpec`), and the properties of the client are lemmas
  * about those functions.
  */
module Rest {
  import opened Wrappers
  import opened JsonValues
  import opened Http
  import opened Exceptions
  import opened Listing
  import Php
  import PT = PageTypeEnum
  import PS = PageStatusEnum
  import PageResource
  import PageRequestResultResource
  import SupporterFieldResource
  import SupporterQuestionResource
  import SupporterResource

  const SESSION_EXPIRE_KEY := "open_public_media.ens.rest.session_expire"
  const SESSION_TOKEN_KEY := "open_public_media.ens.rest.session_token"

  /** The prefix of the endpoints that need no token. */
  const AUTHENTICATE := "authenticate"

  /** A value the client stores in the cache: a token, an expiry time, or `null`. */
  datatype Value = Text(s: string) | Number(n: real) | Null

  /**
    * A PSR-16 cache: its entries, and the keys for which it throws
    * `InvalidArgumentException` on `get` and `set`.
    */
  datatype Cache = Cache(entries: map<string, Value>, rejected: set<string>)

  /** What the client can raise, by PHP exception class. */
  datatype ClientError =
    | NotFound(info: ErrorInfo)           // NotFoundException (an ErrorException)
    | RequestFailed(info: ErrorInfo)      // ErrorException
    | TransportFailed(message: string)    // RuntimeException wrapping a GuzzleException
    | CacheReadFailed(key: string)        // RuntimeException wrapping InvalidArgumentException
    | CacheWriteRejected(key: string)     // InvalidArgumentException, not wrapped
    | DecodeFailed(error: DecodeError)    // TypeError or ValueError from a factory, a return type or an exception's detail
    | NotAList                            // a JSON object where the client iterates or indexes a list
  {
    predicate IsErrorException() {
      NotFound? || RequestFailed?
    }

    predicate IsRuntimeException() {
      TransportFailed? || CacheReadFailed?
    }
  }

  /** The mutable part of a client: the cache's contents and the in-memory token. */
  datatype State = State(cache: Option<Cache>, token: Option<string>)

  /** What a call returns or raises, and the state it leaves behind. */
  datatype Outcome<T> = Outcome(result: Result<T, ClientError>, state: State)

  // ---------------------------------------------------------------------------
  // The cache, read and written through `?->`

  /** `$this->cache?->get($key, $default)` inside `try`, which rethrows as RuntimeException. */
  function ReadCache(cache: Option<Cache>, key: string, default: Value): (r: Result<Value, ClientError>)
    ensures cache.None? ==> r == Success(Null)
    ensures r.Failure? <==> cache.Some? && key in cache.value.rejected
    ensures r.Failure? ==> r.error == CacheReadFailed(key) && r.error.IsRuntimeException()
    ensures cache.Some? && r.Success? ==> r.value == (if key in cache.value.entries then cache.value.entries[key] else default)
  {
    match cache
    case None => Success(Null)
    case Some(c) =>
      if key in c.rejected then Failure(CacheReadFailed(key))
      else if key in c.entries then Success(c.entries[key])
      else Success(default)
  }

  /** `$this->cache?->set($key, $value)`, outside any `try`. */
  function WriteCache(cache: Option<Cache>, key: string, v: Value): (r: Result<Option<Cache>, ClientError>)
    ensures cache.None? ==> r == Success(None)
    ensures r.Failure? <==> cache.Some? && key in cache.value.rejected
    ensures r.Failure? ==> r.error == CacheWriteRejected(key) && !r.error.IsRuntimeException()
    ensures cache.Some? && r.Success? ==> r.value == Some(cache.value.(entries := cache.value.entries[key := v]))
  {
    match cache
    case None => Success(None)
    case Some(c) =>
      if key in c.rejected then Failure(CacheWriteRejected(key))
      else Success(Some(c.(entries := c.entries[key := v])))
  }

  /** A value written to a cache is what the next read of that key returns. */
  lemma WriteThenRead(cache: Option<Cache>, key: string, v: Value, default: Value)
    requires cache.Some? && WriteCache(cache, key, v).Success?
    ensures ReadCache(WriteCache(cache, key, v).value, key, default) == Success(v)
  {
  }

  /** The token a cache value holds; a value of another kind is taken as `null`. */
  function TokenOf(v: Value): (t: Option<string>)
    ensures t.Some? <==> v.Text?
    ensures t.Some? ==> v == Text(t.value)
  {
    if v.Text? then Some(v.s) else None
  }

  /** The cache value a token is stored as. */
  function TokenValue(t: Option<string>): (v: Value)
    ensures TokenOf(v) == t
  {
    if t.Some? then Text(t.value) else Null
  }

  /** The expiry a cache value holds; `null` (and a value of another kind) counts as 0. */
  function ExpiryOf(v: Value): (e: real)
    ensures v.Number? ==> e == v.n
    ensures !v.Number? ==> e == 0.0
  {
    if v.Number? then v.n else 0.0
  }

  /** `time() >= $expires - 300`: the token is discarded from five minutes before expiry on. */
  predicate Stale(now: nat, expires: real) {
    now as real >= expires - 300.0
  }

  // ---------------------------------------------------------------------------
  // `request`: dispatch and classification

  /**
    * `throw new NotFoundException($response)` or `throw new ErrorException($response)`:
    * what is raised is the exception, or the `TypeError` its constructor throws.
    */
  function Raise(resp: Response, notFound: bool): (e: ClientError)
    ensures ErrorExceptionOf(resp).Success? ==>
      e.IsErrorException() && e.info == ErrorExceptionOf(resp).value && (e.NotFound? <==> notFound)
    ensures ErrorExceptionOf(resp).Failure? ==> e == DecodeFailed(ErrorExceptionOf(resp).error)
  {
    match ErrorExceptionOf(resp)
    case Failure(err) => DecodeFailed(err)
    case Success(info) => if notFound then NotFound(info) else RequestFailed(info)
  }

  /** The status handling after the transport answered. */
  function Classify(resp: Response): (r: Result<Response, ClientError>)
    ensures r.Success? <==> resp.status == 200
    ensures r.Success? ==> r.value == resp
    ensures r.Failure? ==> r.error == Raise(resp, resp.status == 404 || resp.status == 204)
  {
    if resp.status == 404 || resp.status == 204 then Failure(Raise(resp, true))
    else if resp.status != 200 then Failure(Raise(resp, false))
    else Success(resp)
  }

  /** Sending a request and classifying the answer; a transport exception becomes a RuntimeException. */
  function Dispatch(transport: Transport, out: Outgoing): (r: Result<Response, ClientError>)
    ensures transport(out).Failure? ==> r == Failure(TransportFailed(transport(out).error))
    ensures transport(out).Success? ==> r == Classify(transport(out).value)
  {
    match transport(out)
    case Failure(m) => Failure(TransportFailed(m))
    case Success(resp) => Classify(resp)
  }

  /** `$this->request('post', 'authenticate', ['body' => $this->apiKey])`. */
  function AuthRequest(apiKey: string): (out: Outgoing)
    ensures Php.StartsWith(out.endpoint, AUTHENTICATE)
    ensures out.options.body == Some(apiKey) && out.options.headers.None?
  {
    Outgoing("post", AUTHENTICATE, Options(None, None, Some(apiKey), None))
  }

  // ---------------------------------------------------------------------------
  // `getToken`

  /** `$data['ens-auth-token']` of the decoded authentication response; a non-string is taken as `null`. */
  function IssuedToken(data: Option<Json>): (t: Option<string>)
    ensures t.Some? <==> data.Some? && data.value.JObject? && Prop(data.value.props, "ens-auth-token").JStr?
    ensures t.Some? ==> Prop(data.value.props, "ens-auth-token") == JStr(t.value)
  {
    if data.Some? && data.value.JObject? && Prop(data.value.props, "ens-auth-token").JStr?
    then Some(Prop(data.value.props, "ens-auth-token").s) else None
  }

  /** The dividend of `$data['expires']/1000`: 0 when the response is not a JSON object. */
  function IssuedMillis(data: Option<Json>): (r: Result<real, DecodeError>)
    ensures data.Some? && data.value.JObject? ==> r == MillisArg(Prop(data.value.props, "expires"), "expires")
    ensures !(data.Some? && data.value.JObject?) ==> r == Success(0.0)
  {
    if data.Some? && data.value.JObject? then MillisArg(Prop(data.value.props, "expires"), "expires")
    else Success(0.0)
  }

  /** The token the first step settles on: the in-memory one when truthy, else the cached one. */
  function Candidate(s: State): (r: Result<Option<string>, ClientError>)
    ensures Php.Truthy(s.token) ==> r == Success(s.token)
    ensures !Php.Truthy(s.token) ==> r == Then(ReadCache(s.cache, SESSION_TOKEN_KEY, Null), TokenOf)
  {
    if Php.Truthy(s.token) then Success(s.token)
    else
      var v :- ReadCache(s.cache, SESSION_TOKEN_KEY, Null);
      Success(TokenOf(v))
  }

  /** Applies `f` to a successful value. */
  function Then<A, B>(r: Result<A, ClientError>, f: A -> B): (q: Result<B, ClientError>)
    ensures q.Success? <==> r.Success?
    ensures r.Success? ==> q.value == f(r.value)
    ensures r.Failure? ==> q.error == r.error
  {
    if r.Success? then Success(f(r.value)) else Failure(r.error)
  }

  /**
    * `if ($token != $this->token) $this->token = $token; return $this->token;`:
    * a token loosely equal to the in-memory one leaves it in place.
    */
  function Settle(s: State, t: Option<string>): (o: Outcome<Option<string>>)
    ensures o.state.cache == s.cache
    ensures o.result == Success(o.state.token)
    ensures Php.LooseEquals(o.state.token, t)
    ensures Php.Truthy(t) ==> o.state.token == t
  {
    var kept := if Php.LooseEquals(t, s.token) then s.token else t;
    Outcome(Success(kept), s.(token := kept))
  }

  /** The refresh branch of `getToken`: authenticate, then write the expiry and the new token to the cache. */
  function Refresh(apiKey: string, transport: Transport, s: State, now: nat): Outcome<Option<string>> {
    var resp := Dispatch(transport, AuthRequest(apiKey));
    if resp.Failure? then Outcome(Failure(resp.error), s)
    else
      var data := resp.value.body.json;
      var issued := IssuedToken(data);
      var ms := IssuedMillis(data);
      if ms.Failure? then Outcome(Failure(DecodeFailed(ms.error)), s)
      else
        var written := WriteCache(s.cache, SESSION_EXPIRE_KEY, Number(now as real + ms.value / 1000.0));
        if written.Failure? then Outcome(Failure(written.error), s)
        else
          var stored := WriteCache(written.value, SESSION_TOKEN_KEY, TokenValue(issued));
          if stored.Failure? then Outcome(Failure(stored.error), s.(cache := written.value))
          else Settle(State(stored.value, s.token), issued)
  }

  /** `getToken()` as a function of the state before the call. */
  function TokenSpec(apiKey: string, transport: Transport, s: State, now: nat): Outcome<Option<string>> {
    var candidate := Candidate(s);
    if candidate.Failure? then Outcome(Failure(candidate.error), s)
    else
      var expires := ReadCache(s.cache, SESSION_EXPIRE_KEY, Number(0.0));
      if expires.Failure? then Outcome(Failure(expires.error), s)
      else
        var kept := if Stale(now, ExpiryOf(expires.value)) then None else candidate.value;
        if Php.Truthy(kept) then Settle(s, kept) else Refresh(apiKey, transport, s, now)
  }

  /** `request($method, $endpoint, $options)` as a function of the state before the call. */
  function RequestSpec(apiKey: string, transport: Transport, s: State, now: nat,
                       verb: string, endpoint: string, options: Options): Outcome<Response>
  {
    if Php.StartsWith(endpoint, AUTHENTICATE) then
      Outcome(Dispatch(transport, Outgoing(verb, endpoint, options)), s)
    else
      var t := TokenSpec(apiKey, transport, s, now);
      if t.result.Failure? then Outcome(Failure(t.result.error), t.state)
      else
        var headers := WithToken(options.headers, t.result.value);
        Outcome(Dispatch(transport, Outgoing(verb, endpoint, options.(headers := Some(headers)))), t.state)
  }

  /**
    * `json_decode` of a successful response checked against the return type
    * `object|array`: anything else (invalid JSON, a scalar) is a `TypeError`.
    */
  function Returned(resp: Response): (r: Result<Json, ClientError>)
    ensures r.Success? <==> resp.body.json.Some? && (resp.body.json.value.JObject? || resp.body.json.value.JArray?)
    ensures r.Success? ==> r.value == resp.body.json.value
    ensures r.Failure? ==> r.error == DecodeFailed(TypeMismatch("return"))
  {
    if resp.body.json.Some? && (resp.body.json.value.JObject? || resp.body.json.value.JArray?)
    then Success(resp.body.json.value) else Failure(DecodeFailed(TypeMismatch("return")))
  }

  /** `get($endpoint, $options)` (verb `get`) or `post($endpoint, $options)` (verb `post`). */
  function CallSpec(apiKey: string, transport: Transport, s: State, now: nat,
                    verb: string, endpoint: string, options: Options): Outcome<Json>
  {
    var o := RequestSpec(apiKey, transport, s, now, verb, endpoint, options);
    Outcome(if o.result.Success? then Returned(o.result.value) else Failure(o.result.error), o.state)
  }

  // ---------------------------------------------------------------------------
  // Shaping decoded responses

  /** A factory error raised by the client. */
  function Lift<T>(r: Result<T, DecodeError>): (q: Result<T, ClientError>)
    ensures q.Success? <==> r.Success?
    ensures r.Success? ==> q.value == r.value
    ensures r.Failure? ==> q.error == DecodeFailed(r.error)
  {
    if r.Success? then Success(r.value) else Failure(DecodeFailed(r.error))
  }

  /** Passes a decoded response on to `shape`, or the error that came before it. */
  function Shaped<T>(r: Result<Json, ClientError>, shape: Json -> Result<T, ClientError>): (q: Result<T, ClientError>)
    ensures r.Failure? ==> q == Failure(r.error)
    ensures r.Success? ==> q == shape(r.value)
  {
    if r.Success? then shape(r.value) else Failure(r.error)
  }

  /** The factories take an `object`: any other JSON kind is a `TypeError`. */
  function PageOf(j: Json): (r: Result<PageResource.Page, DecodeError>)
    ensures j.JObject? ==> r == PageResource.FromJson(j.props)
    ensures !j.JObject? ==> r == Failure(TypeMismatch("json"))
  {
    if j.JObject? then PageResource.FromJson(j.props) else Failure(TypeMismatch("json"))
  }

  function FieldOf(j: Json): (r: Result<SupporterFieldResource.SupporterField, DecodeError>)
    ensures j.JObject? ==> r == SupporterFieldResource.FromJson(j.props)
    ensures !j.JObject? ==> r == Failure(TypeMismatch("json"))
  {
    if j.JObject? then SupporterFieldResource.FromJson(j.props) else Failure(TypeMismatch("json"))
  }

  function QuestionOf(j: Json): (r: Result<SupporterQuestionResource.SupporterQuestion, DecodeError>)
    ensures j.JObject? ==> r == SupporterQuestionResource.FromJson(j.props)
    ensures !j.JObject? ==> r == Failure(TypeMismatch("json"))
  {
    if j.JObject? then SupporterQuestionResource.FromJson(j.props) else Failure(TypeMismatch("json"))
  }

  /** The key `getSupporterFields` stores a field under: `$result->name`, the name the field decoded. */
  function FieldKey(f: SupporterFieldResource.SupporterField): string {
    f.name
  }

  /** The key `getSupporterQuestions` stores a question under: `$result->id`. */
  function QuestionKey(q: SupporterQuestionResource.SupporterQuestion): int {
    q.id
  }

  /** `getPages`: every element of the list decoded as a page, in order. */
  function PagesOf(j: Json): (r: Result<seq<PageResource.Page>, ClientError>)
    ensures !j.JArray? ==> r == Failure(NotAList)
    ensures j.JArray? ==> r == Lift(DecodeAll(j.items, PageOf))
  {
    if j.JArray? then Lift(DecodeAll(j.items, PageOf)) else Failure(NotAList)
  }

  /** `getSupporterFields`: the decoded fields keyed by name. */
  function FieldsOf(j: Json): (r: Result<map<string, SupporterFieldResource.SupporterField>, ClientError>)
    ensures !j.JArray? ==> r == Failure(NotAList)
    ensures j.JArray? ==> r == Lift(KeyedAll(j.items, FieldOf, FieldKey))
  {
    if j.JArray? then Lift(KeyedAll(j.items, FieldOf, FieldKey)) else Failure(NotAList)
  }

  /** `getSupporterQuestions`: the decoded question summaries keyed by id. */
  function QuestionsOf(j: Json): (r: Result<map<int, SupporterQuestionResource.SupporterQuestion>, ClientError>)
    ensures !j.JArray? ==> r == Failure(NotAList)
    ensures j.JArray? ==> r == Lift(KeyedAll(j.items, QuestionOf, QuestionKey))
  {
    if j.JArray? then Lift(KeyedAll(j.items, QuestionOf, QuestionKey)) else Failure(NotAList)
  }

  /**
    * `getSupporterQuestion`: an empty list raises NotFoundException built from
    * a synthetic 404 response; otherwise the first element is decoded with
    * its details.
    */
  function QuestionDetailOf(j: Json): (r: Result<SupporterQuestionResource.SupporterQuestion, ClientError>)
    ensures j == JArray([]) ==> r == Failure(NotFound(ErrorInfo("Not Found", 404, None, None, None)))
    ensures !j.JArray? ==> r == Failure(NotAList)
    ensures j.JArray? && j.items != [] && j.items[0].JObject? ==>
      r == Lift(SupporterQuestionResource.FromDetailJson(j.items[0].props))
    ensures j.JArray? && j.items != [] && !j.items[0].JObject? ==> r == Failure(DecodeFailed(TypeMismatch("json")))
  {
    if j == JArray([]) then Failure(Raise(SyntheticNotFound, true))
    else if !j.JArray? then Failure(NotAList)
    else if j.items[0].JObject? then Lift(SupporterQuestionResource.FromDetailJson(j.items[0].props))
    else Failure(DecodeFailed(TypeMismatch("json")))
  }

  /** `PageRequestResult::fromJson($this->post(...))`. */
  function ProcessResultOf(j: Json): (r: Result<PageRequestResultResource.PageRequestResult, ClientError>)
    ensures j.JObject? ==> r == Lift(PageRequestResultResource.FromJson(j.props))
    ensures !j.JObject? ==> r == Failure(DecodeFailed(TypeMismatch("json")))
  {
    if j.JObject? then Lift(PageRequestResultResource.FromJson(j.props)) else Failure(DecodeFailed(TypeMismatch("json")))
  }

  /** `Supporter::fromJson($this->get(...))`. */
  function SupporterOf(j: Json): (r: Result<SupporterResource.Supporter, ClientError>)
    ensures j.JObject? ==> r == Lift(SupporterResource.Decode(j.props))
    ensures !j.JObject? ==> r == Failure(DecodeFailed(TypeMismatch("json")))
  {
    if j.JObject? then Lift(SupporterResource.Decode(j.props)) else Failure(DecodeFailed(TypeMismatch("json")))
  }

  // ---------------------------------------------------------------------------
  // Request options of the endpoint methods

  /** `['query' => ['type' => $type->value, 'status' => $status?->value]]`. */
  function PagesOptions(pageType: PT.PageType, status: Option<PS.PageStatus>): Options {
    Options(None, Some(map["type" := Some(PT.Value(pageType)),
                           "status" := if status.Some? then Some(PS.Value(status.value)) else None]), None, None)
  }

  /** The supporter query, as the `query` option. */
  function QueryOptions(query: map<string, string>): (o: Options)
    ensures o.query.Some? && o.query.value.Keys == query.Keys
    ensures forall k :: k in query ==> o.query.value[k] == Some(query[k])
  {
    Options(None, Some(map k | k in query :: Some(query[k])), None, None)
  }

  /** What `buildSupporterQuery` promises of the query it builds. */
  predicate IsSupporterQuery(query: map<string, string>, emailAddress: Option<string>,
                             withMemberships: bool, withQuestions: bool)
  {
    query.Keys <= {"email", "includeMemberships", "includeQuestions"} &&
    ("email" in query <==> Php.Truthy(emailAddress)) &&
    ("email" in query ==> query["email"] == emailAddress.value) &&
    ("includeMemberships" in query <==> withMemberships) &&
    ("includeMemberships" in query ==> query["includeMemberships"] == "true") &&
    ("includeQuestions" in query <==> withQuestions) &&
    ("includeQuestions" in query ==> query["includeQuestions"] == "true")
  }

  /** The query `buildSupporterQuery` builds, entry by entry. */
  function SupporterQuery(emailAddress: Option<string>, withMemberships: bool, withQuestions: bool): (query: map<string, string>)
    ensures IsSupporterQuery(query, emailAddress, withMemberships, withQuestions)
  {
    var withEmail: map<string, string> := if Php.Truthy(emailAddress) then map["email" := emailAddress.value] else map[];
    var withMembershipsFlag := if withMemberships then withEmail["includeMemberships" := "true"] else withEmail;
    if withQuestions then withMembershipsFlag["includeQuestions" := "true"] else withMembershipsFlag
  }

  /** The promise fixes the query: the built query is the only map that keeps it. */
  lemma SupporterQueryUnique(query: map<string, string>, emailAddress: Option<string>,
                             withMemberships: bool, withQuestions: bool)
    ensures IsSupporterQuery(query, emailAddress, withMemberships, withQuestions) <==>
      query == SupporterQuery(emailAddress, withMemberships, withQuestions)
  {
    var built := SupporterQuery(emailAddress, withMemberships, withQuestions);
    if IsSupporterQuery(query, emailAddress, withMemberships, withQuestions) {
      assert query.Keys == built.Keys;
    }
  }

  // ---------------------------------------------------------------------------
  // The client

  class Client {
    const apiKey: string
    const transport: Transport
    var cache: Option<Cache>
    var token: Option<string>

    /** `new Client($baseUri, $apiKey, $httpClientOptions, $cache)`; the transport stands for the first and third. */
    constructor(apiKey: string, transport: Transport, cache: Option<Cache>)
      ensures this.apiKey == apiKey && this.transport == transport
      ensures this.cache == cache && this.token == None
    {
      this.apiKey := apiKey;
      this.transport := transport;
      this.cache := cache;
      this.token := None;
    }

    /** `getToken()`. */
    method GetToken(now: nat) returns (r: Result<Option<string>, ClientError>)
      modifies this
      decreases 1
      ensures Outcome(r, State(cache, token)) == TokenSpec(apiKey, transport, old(State(cache, token)), now)
    {
      var current: Option<string>;
      if Php.Truthy(token) {
        current := token;
      } else {
        var read := ReadCache(cache, SESSION_TOKEN_KEY, Null);
        if read.Failure? {
          return Failure(read.error);
        }
        current := TokenOf(read.value);
      }
      var expires := ReadCache(cache, SESSION_EXPIRE_KEY, Number(0.0));
      if expires.Failure? {
        return Failure(expires.error);
      }
      if Stale(now, ExpiryOf(expires.value)) {
        current := None;
      }
      if !Php.Truthy(current) {
        var out := AuthRequest(apiKey);
        AuthenticateNeverRecurses(apiKey, transport, State(cache, token), now, out.verb, out.endpoint, out.options);
        var response := Request(out.verb, out.endpoint, out.options, now);
        if response.Failure? {
          return Failure(response.error);
        }
        var data := response.value.body.json;
        current := IssuedToken(data);
        var ms := IssuedMillis(data);
        if ms.Failure? {
          return Failure(DecodeFailed(ms.error));
        }
        // The expiry key was just read, so the cache accepts it.
        var written := WriteCache(cache, SESSION_EXPIRE_KEY, Number(now as real + ms.value / 1000.0));
        assert written.Success?;
        cache := written.value;
        var stored := WriteCache(cache, SESSION_TOKEN_KEY, TokenValue(current));
        if stored.Failure? {
          return Failure(stored.error);
        }
        cache := stored.value;
      }
      if !Php.LooseEquals(current, token) {
        token := current;
      }
      r := Success(token);
    }

    /** `request($method, $endpoint, $options)`. */
    method Request(verb: string, endpoint: string, options: Options, now: nat) returns (r: Result<Response, ClientError>)
      modifies this
      decreases if Php.StartsWith(endpoint, AUTHENTICATE) then 0 else 2
      ensures Outcome(r, State(cache, token)) == RequestSpec(apiKey, transport, old(State(cache, token)), now, verb, endpoint, options)
    {
      var sent := options;
      if !Php.StartsWith(endpoint, AUTHENTICATE) {
        var t :- GetToken(now);
        sent := sent.(headers := Some(WithToken(sent.headers, t)));
      }
      r := Dispatch(transport, Outgoing(verb, endpoint, sent));
    }

    /** `get($endpoint, $options)`. */
    method Get(endpoint: string, options: Options, now: nat) returns (r: Result<Json, ClientError>)
      modifies this
      ensures Outcome(r, State(cache, token)) == CallSpec(apiKey, transport, old(State(cache, token)), now, "get", endpoint, options)
    {
      var response :- Request("get", endpoint, options, now);
      r := Returned(response);
    }

    /** `post($endpoint, $options)`. */
    method Post(endpoint: string, options: Options, now: nat) returns (r: Result<Json, ClientError>)
      modifies this
      ensures Outcome(r, State(cache, token)) == CallSpec(apiKey, transport, old(State(cache, token)), now, "post", endpoint, options)
    {
      var response :- Request("post", endpoint, options, now);
      r := Returned(response);
    }

    /** `getPages($type, $status)`. */
    method GetPages(pageType: PT.PageType, status: Option<PS.PageStatus>, now: nat)
      returns (r: Result<seq<PageResource.Page>, ClientError>)
      modifies this
      ensures var o := CallSpec(apiKey, transport, old(State(cache, token)), now, "get", "page", PagesOptions(pageType, status));
        State(cache, token) == o.state && r == Shaped(o.result, PagesOf)
    {
      var results :- Get("page", PagesOptions(pageType, status), now);
      if !results.JArray? {
        return Failure(NotAList);
      }
      var items := results.items;
      var pages: seq<PageResource.Page> := [];
      var i := 0;
      while i < |items|
        invariant 0 <= i <= |items|
        invariant DecodeAll(items[..i], PageOf) == Success(pages)
      {
        var page := PageOf(items[i]);
        if page.Failure? {
          FirstFailureWins(items, PageOf, i);
          return Failure(DecodeFailed(page.error));
        }
        assert items[..i + 1][..i] == items[..i];
        pages := pages + [page.value];
        i := i + 1;
      }
      assert items[..i] == items;
      r := Success(pages);
    }

    /** `getPage($id)`. */
    method GetPage(id: int, now: nat) returns (r: Result<PageResource.Page, ClientError>)
      modifies this
      ensures var o := CallSpec(apiKey, transport, old(State(cache, token)), now, "get", "page/" + Php.IntText(id), NoOptions);
        State(cache, token) == o.state && r == Shaped(o.result, j => Lift(PageOf(j)))
    {
      var result :- Get("page/" + Php.IntText(id), NoOptions, now);
      r := Lift(PageOf(result));
    }

    /** `processPage($id, $payload)`: the payload is sent as the JSON body. */
    method ProcessPage(id: int, payload: map<string, Json>, now: nat)
      returns (r: Result<PageRequestResultResource.PageRequestResult, ClientError>)
      modifies this
      ensures var o := CallSpec(apiKey, transport, old(State(cache, token)), now, "post",
                                "page/" + Php.IntText(id) + "/process", Options(None, None, None, Some(payload)));
        State(cache, token) == o.state && r == Shaped(o.result, ProcessResultOf)
    {
      var result :- Post("page/" + Php.IntText(id) + "/process", Options(None, None, None, Some(payload)), now);
      r := ProcessResultOf(result);
    }

    /** `getSupporterFields()`. */
    method GetSupporterFields(now: nat)
      returns (r: Result<map<string, SupporterFieldResource.SupporterField>, ClientError>)
      modifies this
      ensures var o := CallSpec(apiKey, transport, old(State(cache, token)), now, "get", "supporter/fields", NoOptions);
        State(cache, token) == o.state && r == Shaped(o.result, FieldsOf)
    {
      var results :- Get("supporter/fields", NoOptions, now);
      if !results.JArray? {
        return Failure(NotAList);
      }
      var items := results.items;
      var fields: map<string, SupporterFieldResource.SupporterField> := map[];
      var i := 0;
      while i < |items|
        invariant 0 <= i <= |items|
        invariant KeyedAll(items[..i], FieldOf, FieldKey) == Success(fields)
      {
        var field := FieldOf(items[i]);
        if field.Failure? {
          FirstKeyedFailureWins(items, FieldOf, FieldKey, i);
          return Failure(DecodeFailed(field.error));
        }
        assert items[..i + 1][..i] == items[..i];
        fields := fields[field.value.name := field.value];
        i := i + 1;
      }
      assert items[..i] == items;
      r := Success(fields);
    }

    /** `getSupporterQuestions()`. */
    method GetSupporterQuestions(now: nat)
      returns (r: Result<map<int, SupporterQuestionResource.SupporterQuestion>, ClientError>)
      modifies this
      ensures var o := CallSpec(apiKey, transport, old(State(cache, token)), now, "get", "supporter/questions", NoOptions);
        State(cache, token) == o.state && r == Shaped(o.result, QuestionsOf)
    {
      var results :- Get("supporter/questions", NoOptions, now);
      if !results.JArray? {
        return Failure(NotAList);
      }
      var items := results.items;
      var questions: map<int, SupporterQuestionResource.SupporterQuestion> := map[];
      var i := 0;
      while i < |items|
        invariant 0 <= i <= |items|
        invariant KeyedAll(items[..i], QuestionOf, QuestionKey) == Success(questions)
      {
        var question := QuestionOf(items[i]);
        if question.Failure? {
          FirstKeyedFailureWins(items, QuestionOf, QuestionKey, i);
          return Failure(DecodeFailed(question.error));
        }
        assert items[..i + 1][..i] == items[..i];
        questions := questions[question.value.id := question.value];
        i := i + 1;
      }
      assert items[..i] == items;
      r := Success(questions);
    }

    /** `getSupporterQuestion($id)`. */
    method GetSupporterQuestion(id: int, now: nat) returns (r: Result<SupporterQuestionResource.SupporterQuestion, ClientError>)
      modifies this
      ensures var o := CallSpec(apiKey, transport, old(State(cache, token)), now, "get", "supporter/questions/" + Php.IntText(id), NoOptions);
        State(cache, token) == o.state && r == Shaped(o.result, QuestionDetailOf)
    {
      var results :- Get("supporter/questions/" + Php.IntText(id), NoOptions, now);
      if results == JArray([]) {
        return Failure(Raise(SyntheticNotFound, true));
      }
      if !results.JArray? {
        return Failure(NotAList);
      }
      var first := results.items[0];
      if !first.JObject? {
        return Failure(DecodeFailed(TypeMismatch("json")));
      }
      r := Lift(SupporterQuestionResource.FromDetailJson(first.props));
    }

    /** `buildSupporterQuery($emailAddress, $withMemberships, $withQuestions)`. */
    static method BuildSupporterQuery(emailAddress: Option<string>, withMemberships: bool, withQuestions: bool)
      returns (query: map<string, string>)
      ensures query == SupporterQuery(emailAddress, withMemberships, withQuestions)
    {
      query := map[];
      if Php.Truthy(emailAddress) {
        query := query["email" := emailAddress.value];
      }
      if withMemberships {
        query := query["includeMemberships" := "true"];
      }
      if withQuestions {
        query := query["includeQuestions" := "true"];
      }
    }

    /** `getSupporterById($id, $withMemberships, $withQuestions)`: the query never carries an email. */
    method GetSupporterById(id: int, withMemberships: bool, withQuestions: bool, now: nat)
      returns (r: Result<SupporterResource.Supporter, ClientError>)
      modifies this
      ensures var o := CallSpec(apiKey, transport, old(State(cache, token)), now, "get", "supporter/" + Php.IntText(id),
                                QueryOptions(SupporterQuery(None, withMemberships, withQuestions)));
        State(cache, token) == o.state && r == Shaped(o.result, SupporterOf)
    {
      var query := BuildSupporterQuery(None, withMemberships, withQuestions);
      var result :- Get("supporter/" + Php.IntText(id), QueryOptions(query), now);
      if !result.JObject? {
        return Failure(DecodeFailed(TypeMismatch("json")));
      }
      var supporter := SupporterResource.FromJson(result.props);
      r := Lift(supporter);
    }

    /** `getSupporterByEmailAddress($emailAddress, $withMemberships, $withQuestions)`. */
    method GetSupporterByEmailAddress(emailAddress: string, withMemberships: bool, withQuestions: bool, now: nat)
      returns (r: Result<SupporterResource.Supporter, ClientError>)
      modifies this
      ensures var o := CallSpec(apiKey, transport, old(State(cache, token)), now, "get", "supporter",
                                QueryOptions(SupporterQuery(Some(emailAddress), withMemberships, withQuestions)));
        State(cache, token) == o.state && r == Shaped(o.result, SupporterOf)
    {
      var query := BuildSupporterQuery(Some(emailAddress), withMemberships, withQuestions);
      var result :- Get("supporter", QueryOptions(query), now);
      if !result.JObject? {
        return Failure(DecodeFailed(TypeMismatch("json")));
      }
      var supporter := SupporterResource.FromJson(result.props);
      r := Lift(supporter);
    }
  }

  // ---------------------------------------------------------------------------
  // Properties of the token refresh

  /** Neither cache key is rejected (or there is no cache), so both reads and both writes go through. */
  predicate KeysAccepted(cache: Option<Cache>) {
    cache.Some? ==> SESSION_TOKEN_KEY !in cache.value.rejected && SESSION_EXPIRE_KEY !in cache.value.rejected
  }

  /** The expiry the cache holds, 0 when there is none. */
  function StoredExpiry(cache: Option<Cache>): real {
    if cache.Some? && SESSION_EXPIRE_KEY in cache.value.entries then ExpiryOf(cache.value.entries[SESSION_EXPIRE_KEY]) else 0.0
  }

  /** The token the first step reads: the in-memory one when truthy, else the cached one. */
  function StoredCandidate(s: State): Option<string> {
    if Php.Truthy(s.token) then s.token
    else if s.cache.Some? && SESSION_TOKEN_KEY in s.cache.value.entries then TokenOf(s.cache.value.entries[SESSION_TOKEN_KEY])
    else None
  }

  /**
    * A token, from memory or from the cache, is reused without an
    * authenticate request exactly when it is truthy and the stored expiry is
    * more than five minutes away; otherwise the client authenticates.
    */
  lemma ReuseIffValid(apiKey: string, transport: Transport, s: State, now: nat)
    requires KeysAccepted(s.cache)
    ensures var candidate := StoredCandidate(s);
      Php.Truthy(candidate) && !Stale(now, StoredExpiry(s.cache)) ==>
        TokenSpec(apiKey, transport, s, now) == Outcome(Success(candidate), s.(token := candidate))
    ensures !(Php.Truthy(StoredCandidate(s)) && !Stale(now, StoredExpiry(s.cache))) ==>
      TokenSpec(apiKey, transport, s, now) == Refresh(apiKey, transport, s, now)
  {
    assert Candidate(s) == Success(StoredCandidate(s));
    assert ReadCache(s.cache, SESSION_EXPIRE_KEY, Number(0.0)).value.Number? ==>
      ExpiryOf(ReadCache(s.cache, SESSION_EXPIRE_KEY, Number(0.0)).value) == StoredExpiry(s.cache);
  }

  /**
    * Without a cache, or with a cache that holds no expiry, the token is
    * always discarded: every call authenticates first.
    */
  lemma NoExpiryAlwaysAuthenticates(apiKey: string, transport: Transport, s: State, now: nat)
    requires KeysAccepted(s.cache)
    requires s.cache.Some? ==> SESSION_EXPIRE_KEY !in s.cache.value.entries
    ensures TokenSpec(apiKey, transport, s, now) == Refresh(apiKey, transport, s, now)
  {
    ReuseIffValid(apiKey, transport, s, now);
  }

  /**
    * A truthy in-memory token wins over the cache: the cache's token key is
    * not read (a cache that rejects it raises nothing), and while the expiry
    * is valid the call returns that token and changes nothing.
    */
  lemma MemoryTokenShadowsCache(apiKey: string, transport: Transport, s: State, now: nat)
    requires Php.Truthy(s.token)
    requires s.cache.Some? ==> SESSION_EXPIRE_KEY !in s.cache.value.rejected
    requires !Stale(now, StoredExpiry(s.cache))
    ensures TokenSpec(apiKey, transport, s, now) == Outcome(Success(s.token), s)
  {
    var expires := ReadCache(s.cache, SESSION_EXPIRE_KEY, Number(0.0));
    assert ExpiryOf(expires.value) == StoredExpiry(s.cache);
  }

  /** A rejected key on either read surfaces as a RuntimeException, with nothing changed. */
  lemma ReadFailuresSurface(apiKey: string, transport: Transport, s: State, now: nat)
    requires s.cache.Some?
    ensures !Php.Truthy(s.token) && SESSION_TOKEN_KEY in s.cache.value.rejected ==>
      TokenSpec(apiKey, transport, s, now) == Outcome(Failure(CacheReadFailed(SESSION_TOKEN_KEY)), s)
    ensures (Php.Truthy(s.token) || SESSION_TOKEN_KEY !in s.cache.value.rejected) &&
            SESSION_EXPIRE_KEY in s.cache.value.rejected ==>
      TokenSpec(apiKey, transport, s, now) == Outcome(Failure(CacheReadFailed(SESSION_EXPIRE_KEY)), s)
    ensures TokenSpec(apiKey, transport, s, now).result.Failure? &&
            TokenSpec(apiKey, transport, s, now).result.error.CacheReadFailed? ==>
      TokenSpec(apiKey, transport, s, now).state == s
  {
  }

  /**
    * A successful authentication writes the expiry `now + expires/1000` and the
    * issued token to the cache, leaves every other entry alone, and the
    * returned token is the new in-memory token, loosely equal to the issued
    * one (and equal to it when truthy).
    */
  lemma RefreshWritesBoth(apiKey: string, transport: Transport, s: State, now: nat, resp: Response, ms: real)
    requires transport(AuthRequest(apiKey)) == Success(resp) && resp.status == 200
    requires IssuedMillis(resp.body.json) == Success(ms)
    requires KeysAccepted(s.cache)
    ensures var o := Refresh(apiKey, transport, s, now);
      var issued := IssuedToken(resp.body.json);
      o.result == Success(o.state.token) &&
      Php.LooseEquals(o.state.token, issued) &&
      (Php.Truthy(issued) ==> o.state.token == issued) &&
      (s.cache.None? ==> o.state.cache.None?) &&
      (s.cache.Some? ==> o.state.cache == Some(s.cache.value.(entries := s.cache.value.entries
          [SESSION_EXPIRE_KEY := Number(now as real + ms / 1000.0)]
          [SESSION_TOKEN_KEY := TokenValue(issued)])))
  {
  }

  /** After any successful `getToken`, the in-memory token is the token returned. */
  lemma ResultIsStoredToken(apiKey: string, transport: Transport, s: State, now: nat)
    requires TokenSpec(apiKey, transport, s, now).result.Success?
    ensures TokenSpec(apiKey, transport, s, now).result.value == TokenSpec(apiKey, transport, s, now).state.token
  {
  }

  /**
    * A refreshed token with `expires` milliseconds of validity is reused by a
    * later call exactly until five minutes before `now + expires/1000`.
    */
  lemma RefreshedTokenIsReused(apiKey: string, transport: Transport, s: State, now: nat, later: nat,
                               resp: Response, ms: real)
    requires transport(AuthRequest(apiKey)) == Success(resp) && resp.status == 200
    requires IssuedMillis(resp.body.json) == Success(ms)
    requires s.cache.Some? && KeysAccepted(s.cache)
    requires Php.Truthy(IssuedToken(resp.body.json))
    ensures var o := Refresh(apiKey, transport, s, now);
      (later as real < now as real + ms / 1000.0 - 300.0 ==>
        TokenSpec(apiKey, transport, o.state, later) == Outcome(Success(IssuedToken(resp.body.json)), o.state)) &&
      (later as real >= now as real + ms / 1000.0 - 300.0 ==>
        TokenSpec(apiKey, transport, o.state, later) == Refresh(apiKey, transport, o.state, later))
  {
    RefreshWritesBoth(apiKey, transport, s, now, resp, ms);
    var o := Refresh(apiKey, transport, s, now);
    assert StoredExpiry(o.state.cache) == now as real + ms / 1000.0;
    ReuseIffValid(apiKey, transport, o.state, later);
  }

  /**
    * The cache writes are not inside a `try`: a cache that rejects the token
    * key on write makes `getToken` raise InvalidArgumentException itself, not
    * a RuntimeException, after the new expiry was already written.
    */
  lemma TokenWriteRejectedEscapesUnwrapped(apiKey: string, transport: Transport, s: State, now: nat,
                                           resp: Response, ms: real)
    requires Php.Truthy(s.token)
    requires s.cache.Some? && SESSION_TOKEN_KEY in s.cache.value.rejected && SESSION_EXPIRE_KEY !in s.cache.value.rejected
    requires Stale(now, StoredExpiry(s.cache))
    requires transport(AuthRequest(apiKey)) == Success(resp) && resp.status == 200
    requires IssuedMillis(resp.body.json) == Success(ms)
    ensures var o := TokenSpec(apiKey, transport, s, now);
      o.result == Failure(CacheWriteRejected(SESSION_TOKEN_KEY)) && !o.result.error.IsRuntimeException() &&
      o.state == s.(cache := Some(s.cache.value.(entries := s.cache.value.entries
          [SESSION_EXPIRE_KEY := Number(now as real + ms / 1000.0)])))
  {
    var expires := ReadCache(s.cache, SESSION_EXPIRE_KEY, Number(0.0));
    assert ExpiryOf(expires.value) == StoredExpiry(s.cache);
  }

  /** A second `getToken` while the token is valid returns the same token and changes nothing. */
  lemma TokenIsStableWhileValid(apiKey: string, transport: Transport, s: State, now: nat, later: nat)
    requires TokenSpec(apiKey, transport, s, now).result.Success?
    requires Php.Truthy(TokenSpec(apiKey, transport, s, now).result.value)
    requires s.cache.Some? ==> SESSION_EXPIRE_KEY !in s.cache.value.rejected
    requires !Stale(later, StoredExpiry(TokenSpec(apiKey, transport, s, now).state.cache))
    ensures var o := TokenSpec(apiKey, transport, s, now);
      TokenSpec(apiKey, transport, o.state, later) == Outcome(o.result, o.state)
  {
    var o := TokenSpec(apiKey, transport, s, now);
    ResultIsStoredToken(apiKey, transport, s, now);
    assert o.state.cache.Some? ==> o.state.cache.value.rejected == s.cache.value.rejected;
    MemoryTokenShadowsCache(apiKey, transport, o.state, later);
  }

  // ---------------------------------------------------------------------------
  // Properties of request dispatch

  /**
    * Endpoints starting with `authenticate` go out unchanged, without a token
    * and without `getToken`, so authentication cannot recurse; the request
    * `getToken` sends is one of them.
    */
  lemma AuthenticateNeverRecurses(apiKey: string, transport: Transport, s: State, now: nat,
                                  verb: string, endpoint: string, options: Options)
    requires Php.StartsWith(endpoint, AUTHENTICATE)
    ensures RequestSpec(apiKey, transport, s, now, verb, endpoint, options) ==
      Outcome(Dispatch(transport, Outgoing(verb, endpoint, options)), s)
  {
  }

  /**
    * Every other request first gets a token; it raises what `getToken`
    * raises, or goes out with `ens-auth-token` set to that token over the
    * caller's other headers, leaving the state `getToken` left.
    */
  lemma TokenHeaderInjected(apiKey: string, transport: Transport, s: State, now: nat,
                            verb: string, endpoint: string, options: Options)
    requires !Php.StartsWith(endpoint, AUTHENTICATE)
    ensures var t := TokenSpec(apiKey, transport, s, now);
      var o := RequestSpec(apiKey, transport, s, now, verb, endpoint, options);
      o.state == t.state &&
      (t.result.Failure? ==> o.result == Failure(t.result.error)) &&
      (t.result.Success? ==>
        exists headers :: o.result == Dispatch(transport, Outgoing(verb, endpoint, options.(headers := Some(headers)))) &&
          TOKEN_HEADER in headers && headers[TOKEN_HEADER] == t.result.value &&
          (options.headers.Some? ==> forall h :: h in options.headers.value && h != TOKEN_HEADER ==> h in headers && headers[h] == options.headers.value[h]))
  {
    var t := TokenSpec(apiKey, transport, s, now);
    if t.result.Success? {
      var headers := WithToken(options.headers, t.result.value);
      assert RequestSpec(apiKey, transport, s, now, verb, endpoint, options).result ==
        Dispatch(transport, Outgoing(verb, endpoint, options.(headers := Some(headers))));
    }
  }

  /** Without a cache, nothing a request does creates one, so the next request authenticates again. */
  lemma WithoutCacheEveryCallAuthenticates(apiKey: string, transport: Transport, s: State, now: nat, later: nat,
                                           verb: string, endpoint: string, options: Options)
    requires s.cache.None?
    ensures var o := RequestSpec(apiKey, transport, s, now, verb, endpoint, options);
      o.state.cache.None? &&
      TokenSpec(apiKey, transport, o.state, later) == Refresh(apiKey, transport, o.state, later)
  {
    var o := RequestSpec(apiKey, transport, s, now, verb, endpoint, options);
    if !Php.StartsWith(endpoint, AUTHENTICATE) {
      NoExpiryAlwaysAuthenticates(apiKey, transport, s, now);
    }
    NoExpiryAlwaysAuthenticates(apiKey, transport, o.state, later);
  }

  /**
    * A 404 or a 204 raises NotFoundException, which an ErrorException handler
    * also catches, with the reason as message and the status as code, unless
    * building it throws the `TypeError` of a detail.
    */
  lemma NotFoundIsAnErrorException(resp: Response)
    requires resp.status == 404 || resp.status == 204
    ensures Classify(resp).Failure?
    ensures ErrorExceptionOf(resp).Success? ==>
      Classify(resp).error.NotFound? && Classify(resp).error.IsErrorException() &&
      Classify(resp).error.info.message == resp.reason && Classify(resp).error.info.code == resp.status
    ensures ErrorExceptionOf(resp).Failure? ==>
      Classify(resp).error.DecodeFailed? && Classify(resp).error.error.TypeMismatch?
  {
  }

  /** Any other status but 200 raises ErrorException, or the `TypeError` of a detail; never NotFoundException. */
  lemma OtherStatusIsAnErrorException(resp: Response)
    requires resp.status != 200 && resp.status != 404 && resp.status != 204
    ensures Classify(resp).Failure? && !Classify(resp).error.NotFound?
    ensures ErrorExceptionOf(resp).Success? ==>
      Classify(resp).error == RequestFailed(ErrorExceptionOf(resp).value)
  {
  }

  // ---------------------------------------------------------------------------
  // Properties of the endpoint methods

  /** An empty question list raises NotFoundException with code 404 and no details. */
  lemma EmptyQuestionIsNotFound()
    ensures QuestionDetailOf(JArray([])) == Failure(NotFound(ErrorInfo("Not Found", 404, None, None, None)))
    ensures QuestionDetailOf(JArray([])).error.IsErrorException()
  {
    SyntheticNotFoundHasNoDetails();
  }

  /** Every field is stored under its own name, and every name of a decoded field has an entry. */
  lemma FieldsKeyedByName(j: Json)
    requires FieldsOf(j).Success?
    ensures forall k :: k in FieldsOf(j).value ==> FieldsOf(j).value[k].name == k
    ensures forall i :: 0 <= i < |j.items| ==> FieldOf(j.items[i]).Success? && FieldOf(j.items[i]).value.name in FieldsOf(j).value
  {
  }

  /** Every question summary is stored under its own id, and none of them has details. */
  lemma QuestionsKeyedById(j: Json)
    requires QuestionsOf(j).Success?
    ensures forall k :: k in QuestionsOf(j).value ==> QuestionsOf(j).value[k].id == k
    ensures forall k :: k in QuestionsOf(j).value ==> !QuestionsOf(j).value[k].HasDetails()
  {
    forall k | k in QuestionsOf(j).value
      ensures !QuestionsOf(j).value[k].HasDetails()
    {
      KeyedAllLastWins(j.items, QuestionOf, QuestionKey, k);
    }
  }

  /** The pages come back in the order of the list, one per element. */
  lemma PagesInOrder(j: Json)
    requires PagesOf(j).Success?
    ensures |PagesOf(j).value| == |j.items|
    ensures forall i :: 0 <= i < |j.items| ==> j.items[i].JObject? && PageResource.FromJson(j.items[i].props) == Success(PagesOf(j).value[i])
  {
  }
}
