/** The three steps of the SmugMug OAuth 1.0a handshake as the newer sagas
    run them: asking for a request token (and building the URL the user
    opens to get a verification pin), trading the pin for an access token,
    and loading the saved values from local storage at start-up. Each saga
    is a method on the runtime, proved against a function giving the
    effects it yields, the storage it leaves and how it ends. */
module AuthSagas {
  import opened JsValues
  import opened ActionMeta
  import opened StringOrder
  import opened PercentCodec
  import opened QueryString
  import opened OauthParams
  import opened OauthSigner
  import opened SagaRuntime
  import opened ApiUtils

  /** Types of the data actions the handshake dispatches. */
  const RequestTokenType: string := ActionType("SMUGMUG_REQUEST_TOKEN")
  const AccessTokenType: string := ActionType("SMUGMUG_ACCESS_TOKEN")
  const AuthorizationUrlType: string := ActionType("SMUGMUG_AUTHORIZATION_URL")
  const LoadFromLocalStorageType: string := ActionType("SMUGMUG_LOAD_FROM_LOCAL_STORAGE")

  /** `{ oauth_callback: 'oob' }`: the pin is shown to the user instead of
      a callback being called. */
  const OobCallback: Val := Obj(map["oauth_callback" := Str("oob")])

  /** What a saga step leaves behind: the effects it yielded, local storage
      and how it ended. */
  datatype Run = Run(effects: seq<Effect>, storage: map<string, Val>, ending: Ending<()>)

  /** Effects that come before a step's own run. */
  function Then(effects: seq<Effect>, next: Run): Run {
    Run(effects + next.effects, next.storage, next.ending)
  }

  /** The error `authorize` throws: destructuring a null token, or
      decoding a malformed query. */
  function FailureError(f: Failure): Val {
    match f
    case NullCredentials => TypeError
    case MalformedQuery => UriError
  }

  // ---------------------------------------------------------------------
  // Signing the handshake requests

  /** `{ Accept: 'application/json', ...oauth.toHeader(authorize(request, token), extra) }`;
      an error `authorize` throws ends the saga. */
  function HandshakeHeaders(oauth: Oauth, request: Request, token: Val, extra: Val, e: Entropy, json: Val -> string)
    : Ending<Val>
    requires oauth.nonceLength <= |e.picks| && ValidPicks(e.picks)
  {
    match oauth.Authorized(request, token, e.picks, e.timestamp, json)
    case Err(f) => Crashed(FailureError(f))
    case Ok(fields) =>
      Finished(Obj(map["Accept" := AcceptJson, "Authorization" := Str(oauth.HeaderValue(Obj(fields), extra))]))
  }

  /** The request step's request: a POST of `{ oauth_callback: 'oob' }`. */
  function RequestTokenRequest(): Request {
    Request(Some("POST"), SmugmugRequestTokenUrl, OobCallback, false)
  }

  /** The verify step's request: a GET carrying the pin as `oauth_verifier`. */
  function AccessTokenRequest(pin: Val): Request {
    Request(Some("GET"), SmugmugAccessTokenUrl, Obj(map["oauth_verifier" := pin]), false)
  }

  /** `{ key: oauth_token, secret: oauth_token_secret }` of the held request token. */
  function RequestTokenPair(requestToken: Val): Val {
    Obj(map["key" := OptProp(requestToken, "oauth_token"), "secret" := OptProp(requestToken, "oauth_token_secret")])
  }

  /** The consumer credentials of the verify step, `{ key, secret }`. */
  function ConsumerOauth(credentials: Val): Oauth {
    SagaOauth(OptProp(credentials, "key"), OptProp(credentials, "secret"))
  }

  /** The request step's call: `postRequest(url, { oauth_callback }, headers)`
      signed with the key and secret of the payload and no token;
      destructuring a null or undefined payload throws. */
  function RequestTokenCall(payload: Val, e: Entropy, json: Val -> string): Ending<ApiCall>
    requires EnoughPicks(e)
  {
    if Nullish(payload) then Crashed(TypeError)
    else
      var oauth := SagaOauth(OptProp(payload, "smugmugApiKey"), OptProp(payload, "smugmugApiSecret"));
      match HandshakeHeaders(oauth, RequestTokenRequest(), Undef, OobCallback, e, json)
      case Crashed(err) => Crashed(err)
      case Finished(headers) => Finished(PostRequest(Str(SmugmugRequestTokenUrl), OobCallback, headers))
  }

  /** The verify step's call: `getRequest(url, headers)` signed with the
      selected consumer credentials and the held request token as token;
      destructuring a null or undefined selection throws. */
  function AccessTokenCall(pin: Val, credentials: Val, requestToken: Val, e: Entropy, json: Val -> string)
    : Ending<ApiCall>
    requires EnoughPicks(e)
  {
    if Nullish(credentials) || Nullish(requestToken) then Crashed(TypeError)
    else
      match HandshakeHeaders(ConsumerOauth(credentials), AccessTokenRequest(pin), RequestTokenPair(requestToken),
                             Obj(map["oauth_verifier" := pin]), e, json)
      case Crashed(err) => Crashed(err)
      case Finished(headers) => Finished(GetRequest(Str(SmugmugAccessTokenUrl), headers))
  }

  /** The handshake URLs carry no query, so `authorize` never throws for a
      token that is not null. */
  lemma HandshakeUrlsPlain()
    ensures UrlToObject(SmugmugRequestTokenUrl) == Some(map[])
    ensures UrlToObject(SmugmugAccessTokenUrl) == Some(map[])
  {
    assert '?' !in SmugmugRequestTokenUrl && '?' !in SmugmugAccessTokenUrl by {
      forall i | 0 <= i < |SmugmugRequestTokenUrl| ensures SmugmugRequestTokenUrl[i] != '?' { }
      forall i | 0 <= i < |SmugmugAccessTokenUrl| ensures SmugmugAccessTokenUrl[i] != '?' { }
    }
    UrlWithoutQuery(SmugmugRequestTokenUrl);
    UrlWithoutQuery(SmugmugAccessTokenUrl);
  }

  // ---------------------------------------------------------------------
  // Token responses and the authorization URL

  /** `convertQueryStringToObject(response)`: the body of a token response
      is a query string; `split` of anything else but undefined throws, and
      so does a malformed escape. */
  function TokenResponse(response: Val): (r: Option<Val>)
    ensures r.Some? ==> r.value.Obj?
  {
    var parsed := match response
      case Undef => ParseQuery("")
      case Str(s) => ParseQuery(s)
      case _ => None;
    match parsed
    case None => None
    case Some(m) => Some(Obj(m))
  }

  /** A token response written as `k1=enc(v1)&k2=enc(v2)...` with distinct
      plain keys parses to exactly those fields. */
  lemma TokenResponseParses(kvs: seq<(string, string)>)
    requires 1 <= |kvs| && DistinctKeys(kvs) && PlainKeys(kvs)
    ensures TokenResponse(Str(Join(QueryPairs(kvs), "&"))) == Some(Obj(MapOf(kvs)))
  {
    ParseQueryRoundTrip(kvs);
  }

  /** The options of both token calls: the creator of the step's type for
      success and error, and the token response parsed as the payload. */
  function TokenOptions(actionType: string): CallOptions {
    var creator := DataCreator(actionType);
    CallOptions(None, Some(creator), Some(TokenResponse), Some(creator), Undef, Undef, None)
  }

  /** `{ oauth_token: encodeURIComponent(token), access: 'Full', permissions: 'Modify' }` */
  function AuthorizationProperties(token: Val): map<string, Val> {
    map["oauth_token" := Str(EncodeURIComponent(ToJsString(token))), "access" := Str("Full"), "permissions" := Str("Modify")]
  }

  /** `${SMUGMUG_AUTHORIZE_URL}?${getDataAsParameterString(sortObjectProperties(properties))}` */
  function AuthorizationUrl(token: Val): string {
    SmugmugAuthorizeUrl + "?" + ParameterString(SortedEntries(AuthorizationProperties(token)))
  }

  lemma AuthorizationKeysSorted(keys: set<string>)
    requires keys == {"access", "oauth_token", "permissions"}
    ensures SortedKeys(keys) == ["access", "oauth_token", "permissions"]
  {
    assert Below("access", "oauth_token") && Below("oauth_token", "permissions") && Below("access", "permissions");
    SortedKeysIs(keys, ["access", "oauth_token", "permissions"]);
  }

  /** Entries of a map whose keys sort as `access`, `oauth_token`, `permissions`. */
  lemma EntriesInKeyOrder(m: map<string, Val>, enc: string)
    requires m == map["oauth_token" := Str(enc), "access" := Str("Full"), "permissions" := Str("Modify")]
    requires SortedKeys(m.Keys) == ["access", "oauth_token", "permissions"]
    ensures SortedEntries(m) == [OauthParams.Entry("access", Str("Full")), OauthParams.Entry("oauth_token", Str(enc)),
                                 OauthParams.Entry("permissions", Str("Modify"))]
  {
    SortedEntriesThree(m, "access", "oauth_token", "permissions");
    assert m["access"] == Str("Full") && m["oauth_token"] == Str(enc) && m["permissions"] == Str("Modify");
  }

  /** The three properties sort as `access`, `oauth_token`, `permissions`. */
  lemma AuthorizationEntries(token: Val)
    ensures SortedEntries(AuthorizationProperties(token)) ==
      [OauthParams.Entry("access", Str("Full")),
       OauthParams.Entry("oauth_token", Str(EncodeURIComponent(ToJsString(token)))),
       OauthParams.Entry("permissions", Str("Modify"))]
  {
    var properties := AuthorizationProperties(token);
    assert properties.Keys == {"access", "oauth_token", "permissions"};
    AuthorizationKeysSorted(properties.Keys);
    EntriesInKeyOrder(properties, EncodeURIComponent(ToJsString(token)));
  }

  lemma JoinThree(a: string, b: string, c: string, sep: string)
    ensures Join([a, b, c], sep) == a + sep + (b + sep + c)
  {
    assert [a, b, c][1..] == [b, c] && [b, c][1..] == [c];
    assert Join([c], sep) == c;
    assert Join([b, c], sep) == b + sep + c;
  }

  /** Three entries without list values print as `a=x&b=y&c=z`. */
  lemma ThreeScalars(a: string, x: Val, b: string, y: Val, c: string, z: Val)
    requires !x.Arr? && !y.Arr? && !z.Arr?
    ensures ParameterString([OauthParams.Entry(a, x), OauthParams.Entry(b, y), OauthParams.Entry(c, z)])
      == PairString(a, x) + "&" + (PairString(b, y) + "&" + PairString(c, z))
  {
    var entries := [OauthParams.Entry(a, x), OauthParams.Entry(b, y), OauthParams.Entry(c, z)];
    ParameterStringScalars(entries);
    assert Pairs(entries) == [PairString(a, x), PairString(b, y), PairString(c, z)];
    JoinThree(PairString(a, x), PairString(b, y), PairString(c, z), "&");
  }

  /** The sorted properties print as `access=Full&oauth_token=…&permissions=Modify`. */
  lemma AuthorizationQuery(enc: string)
    ensures ParameterString([OauthParams.Entry("access", Str("Full")), OauthParams.Entry("oauth_token", Str(enc)),
                             OauthParams.Entry("permissions", Str("Modify"))])
      == "access=Full" + "&" + ("oauth_token=" + enc + "&" + "permissions=Modify")
  {
    ThreeScalars("access", Str("Full"), "oauth_token", Str(enc), "permissions", Str("Modify"));
    assert PairString("access", Str("Full")) == "access=Full";
    assert PairString("oauth_token", Str(enc)) == "oauth_token=" + enc;
    assert PairString("permissions", Str("Modify")) == "permissions=Modify";
  }

  lemma AuthorizationQueryText(enc: string, query: string)
    requires query == "access=Full" + "&" + ("oauth_token=" + enc + "&" + "permissions=Modify")
    ensures query == "access=Full&oauth_token=" + enc + "&permissions=Modify"
  {
  }

  /** The authorization URL asks for full access with modify permission
      for the encoded request token, the three fields in name order. */
  lemma AuthorizationUrlIs(token: Val)
    ensures AuthorizationUrl(token) ==
      SmugmugAuthorizeUrl + "?" + ("access=Full&oauth_token=" + EncodeURIComponent(ToJsString(token)) + "&permissions=Modify")
  {
    var enc := EncodeURIComponent(ToJsString(token));
    AuthorizationEntries(token);
    AuthorizationQuery(enc);
    AuthorizationQueryText(enc, ParameterString(SortedEntries(AuthorizationProperties(token))));
  }

  // ---------------------------------------------------------------------
  // What follows the call

  /** The meta a capturing success creator recorded, undefined when it was
      not called. */
  function CapturedMeta(res: CallResult): Val {
    if res.captured.Some? then res.captured.value.1 else Undef
  }

  /** `apiResult && !captureSuccessMeta?.error` */
  predicate Proceeds(res: CallResult) {
    res.ok && !Truthy(OptProp(CapturedMeta(res), "error"))
  }

  /** The captured meta is the response meta, which carries no error: the
      step goes on exactly when the call succeeded. */
  lemma ProceedsIffOk(res: CallResult)
    requires res.captured.Some? ==> res.captured.value.1 == DataResponseMeta
    ensures Proceeds(res) <==> res.ok
  {
  }

  /** Two writes in one `try`: the second is skipped when the first throws,
      and the exception is swallowed. */
  function WritePair(storage: map<string, Val>, failing: set<string>, first: (string, Val), second: (string, Val))
    : (r: Run)
    ensures r.ending == Finished(())
    ensures r.effects == if first.0 in failing then [StorageWrite(first.0, first.1)]
                         else [StorageWrite(first.0, first.1), StorageWrite(second.0, second.1)]
  {
    var w1 := StorageWrite(first.0, first.1);
    if first.0 in failing then Run([w1], storage, Finished(()))
    else
      var stored := storage[first.0 := first.1];
      var w2 := StorageWrite(second.0, second.1);
      if second.0 in failing then Run([w1, w2], stored, Finished(()))
      else Run([w1, w2], stored[second.0 := second.1], Finished(()))
  }

  /** A write that succeeds stores its value; one that throws stores
      nothing; no other key changes. */
  lemma WritePairStores(storage: map<string, Val>, failing: set<string>, first: (string, Val), second: (string, Val))
    requires first.0 != second.0
    ensures var s := WritePair(storage, failing, first, second).storage;
      (forall k :: k != first.0 && k != second.0 ==> (k in s <==> k in storage) && (k in s ==> s[k] == storage[k]))
      && (first.0 !in failing ==> first.0 in s && s[first.0] == first.1)
      && (first.0 in failing ==> s == storage)
      && (first.0 !in failing && second.0 !in failing ==> second.0 in s && s[second.0] == second.1)
      && (second.0 in failing ==> (second.0 in s <==> second.0 in storage) && (second.0 in s ==> s[second.0] == storage[second.0]))
  {
  }

  /** The authorization URL action, or the error reading `oauth_token` of
      an undefined captured payload. */
  function AuthorizationUrlAction(res: CallResult): Ending<Action> {
    var payload := if res.captured.Some? then res.captured.value.0 else Undef;
    match Prop(payload, "oauth_token")
    case None => Crashed(TypeError)
    case Some(token) => Finished(DataAction(AuthorizationUrlType, Str(AuthorizationUrl(token)), MakeDataResponseMeta(Undef)))
  }

  /** After the request-token call: on success, save the consumer key and
      secret (a storage error is swallowed), then dispatch the
      authorization URL. */
  function AfterRequestToken(payload: Val, res: CallResult, storage: map<string, Val>, failing: set<string>): Run {
    if !Proceeds(res) then Run([], storage, Finished(()))
    else
      var w := WritePair(storage, failing, ("smugmugApiKey", OptProp(payload, "smugmugApiKey")),
                                           ("smugmugApiSecret", OptProp(payload, "smugmugApiSecret")));
      match AuthorizationUrlAction(res)
      case Crashed(err) => Run(w.effects, w.storage, Crashed(err))
      case Finished(action) => Run(w.effects + [Dispatch(action)], w.storage, Finished(()))
  }

  /** After the access-token call: on success, save the token and its
      secret from the captured payload (destructuring an undefined payload
      throws inside the `try`, so nothing is saved). */
  function AfterAccessToken(res: CallResult, storage: map<string, Val>, failing: set<string>): Run {
    if !Proceeds(res) || res.captured.None? || Nullish(res.captured.value.0) then Run([], storage, Finished(()))
    else
      var payload := res.captured.value.0;
      WritePair(storage, failing, ("authToken", OptProp(payload, "oauth_token")),
                                  ("authTokenSecret", OptProp(payload, "oauth_token_secret")))
  }

  /** A verify step whose call did not succeed does nothing more. */
  lemma AfterAccessTokenStops(res: CallResult, storage: map<string, Val>, failing: set<string>)
    requires !res.ok
    ensures AfterAccessToken(res, storage, failing) == Run([], storage, Finished(()))
  {
  }

  /** A call step followed by what comes after it. */
  function CallThen(c: ApiCall, t: Transport, o: CallOptions, storage: map<string, Val>, after: CallResult -> Run): Run {
    var tr := CallApiTrace(c, t, o);
    match tr.ending
    case Crashed(err) => Run(tr.effects, storage, Crashed(err))
    case Finished(res) => Then(tr.effects, after(res))
  }

  /** The request-token call and what follows it. */
  function RequestTokenExchange(c: ApiCall, payload: Val, t: Transport, storage: map<string, Val>, failing: set<string>): Run {
    CallThen(c, t, TokenOptions(RequestTokenType), storage, res => AfterRequestToken(payload, res, storage, failing))
  }

  /** The access-token call and what follows it. */
  function AccessTokenExchange(c: ApiCall, t: Transport, storage: map<string, Val>, failing: set<string>): Run {
    CallThen(c, t, TokenOptions(AccessTokenType), storage, res => AfterAccessToken(res, storage, failing))
  }

  /** `smugmugGetRequestTokenSaga(action)` */
  function RequestTokenRun(payload: Val, e: Entropy, json: Val -> string, t: Transport,
                           storage: map<string, Val>, failing: set<string>): Run
    requires EnoughPicks(e)
  {
    match RequestTokenCall(payload, e, json)
    case Crashed(err) => Run([], storage, Crashed(err))
    case Finished(c) => RequestTokenExchange(c, payload, t, storage, failing)
  }

  /** `smugmugVerifyPinSaga(action)` with the selected credentials and request token. */
  function VerifyPinRun(pin: Val, credentials: Val, requestToken: Val, e: Entropy, json: Val -> string,
                        t: Transport, storage: map<string, Val>, failing: set<string>): Run
    requires EnoughPicks(e)
  {
    match AccessTokenCall(pin, credentials, requestToken, e, json)
    case Crashed(err) => Run([], storage, Crashed(err))
    case Finished(c) => AccessTokenExchange(c, t, storage, failing)
  }

  // ---------------------------------------------------------------------
  // The two handshake sagas

  /** `oauth.authorize(request, token)` on a fresh request object. */
  method AuthorizeRequest(oauth: Oauth, request: Request, token: Val, e: Entropy, json: Val -> string)
    returns (authorized: Result<map<string, Val>, Failure>)
    requires oauth.nonceLength <= |e.picks| && ValidPicks(e.picks)
    ensures authorized == oauth.Authorized(request, token, e.picks, e.timestamp, json)
  {
    var r := new HttpRequest(request.verb, request.url, request.data, request.includeBodyHash);
    assert r.Value() == request;
    authorized := oauth.Authorize(r, token, e.picks, e.timestamp, json);
  }

  /** `{ Accept: 'application/json', ...oauth.toHeader(oauth.authorize(request, token), extra) }` */
  method SignHandshake(oauth: Oauth, request: Request, token: Val, extra: Val, e: Entropy, json: Val -> string)
    returns (headers: Ending<Val>)
    requires oauth.nonceLength <= |e.picks| && ValidPicks(e.picks)
    ensures headers == HandshakeHeaders(oauth, request, token, extra, e, json)
  {
    var authorized := AuthorizeRequest(oauth, request, token, e, json);
    if authorized.Err? {
      return Crashed(FailureError(authorized.error));
    }
    var authorization := oauth.ToHeader(Obj(authorized.value), extra);
    headers := Finished(Obj(map["Accept" := AcceptJson, "Authorization" := Str(authorization)]));
  }

  /** The two writes of one `try` block. */
  method WriteBoth(rt: Runtime, first: (string, Val), second: (string, Val))
    modifies rt
    ensures var w := WritePair(old(rt.storage), rt.failing, first, second);
      rt.effects == old(rt.effects) + w.effects && rt.storage == w.storage
  {
    var ok := rt.Write(first.0, first.1);
    if ok {
      ok := rt.Write(second.0, second.1);
    }
  }

  /** The request-token saga after `callApi` has returned. */
  method FinishRequestToken(rt: Runtime, payload: Val, res: CallResult) returns (ending: Ending<()>)
    modifies rt
    ensures var run := AfterRequestToken(payload, res, old(rt.storage), rt.failing);
      rt.effects == old(rt.effects) + run.effects && rt.storage == run.storage && ending == run.ending
  {
    var captureSuccessMeta := CapturedMeta(res);
    if !(res.ok && !Truthy(OptProp(captureSuccessMeta, "error"))) {
      return Finished(());
    }
    ghost var before := rt.effects;
    WriteBoth(rt, ("smugmugApiKey", OptProp(payload, "smugmugApiKey")), ("smugmugApiSecret", OptProp(payload, "smugmugApiSecret")));
    var captureSuccessPayload := if res.captured.Some? then res.captured.value.0 else Undef;
    var oauthToken := Prop(captureSuccessPayload, "oauth_token");
    if oauthToken.None? {
      return Crashed(TypeError);
    }
    var properties := map["oauth_token" := Str(EncodeURIComponent(ToJsString(oauthToken.value))),
                          "access" := Str("Full"), "permissions" := Str("Modify")];
    var sorted := SortObjectProperties(properties);
    var query, _ := GetDataAsParameterString(sorted);
    var url := SmugmugAuthorizeUrl + "?" + query;
    ghost var written := rt.effects;
    rt.Put(DataAction(AuthorizationUrlType, Str(url), MakeDataResponseMeta(Undef)));
    AppendAssociates(old(rt.effects), written[|old(rt.effects)|..], [Dispatch(DataAction(AuthorizationUrlType, Str(url), MakeDataResponseMeta(Undef)))]);
    ending := Finished(());
  }

  /** The first half of the request-token saga: destructure and sign. */
  method RequestTokenRequestCall(payload: Val, e: Entropy, json: Val -> string) returns (call: Ending<ApiCall>)
    requires EnoughPicks(e)
    ensures call == RequestTokenCall(payload, e, json)
  {
    if Nullish(payload) {
      return Crashed(TypeError);
    }
    var oauth := SagaOauth(OptProp(payload, "smugmugApiKey"), OptProp(payload, "smugmugApiSecret"));
    var headers := SignHandshake(oauth, RequestTokenRequest(), Undef, OobCallback, e, json);
    if headers.Crashed? {
      return Crashed(headers.error);
    }
    call := Finished(PostRequest(Str(SmugmugRequestTokenUrl), OobCallback, headers.value));
  }

  /** `callApi(postRequest, …)` for the request token, then the rest of the
      request-token saga. */
  method ExchangeRequestToken(rt: Runtime, call: ApiCall, payload: Val, t: Transport) returns (ending: Ending<()>)
    modifies rt
    ensures var run := RequestTokenExchange(call, payload, t, old(rt.storage), rt.failing);
      rt.effects == old(rt.effects) + run.effects && rt.storage == run.storage && ending == run.ending
  {
    var apiResult := CallApi(rt, call, t, TokenOptions(RequestTokenType));
    if apiResult.Crashed? {
      return Crashed(apiResult.error);
    }
    ending := FinishRequestToken(rt, payload, apiResult.value);
    AppendAssociates(old(rt.effects), CallApiTrace(call, t, TokenOptions(RequestTokenType)).effects,
                     AfterRequestToken(payload, apiResult.value, old(rt.storage), rt.failing).effects);
  }

  /** `smugmugGetRequestTokenSaga({ payload })` */
  method GetRequestToken(rt: Runtime, payload: Val, e: Entropy, json: Val -> string, t: Transport)
    returns (ending: Ending<()>)
    requires EnoughPicks(e)
    modifies rt
    ensures var run := RequestTokenRun(payload, e, json, t, old(rt.storage), rt.failing);
      rt.effects == old(rt.effects) + run.effects && rt.storage == run.storage && ending == run.ending
  {
    var call := RequestTokenRequestCall(payload, e, json);
    if call.Crashed? {
      return Crashed(call.error);
    }
    ending := ExchangeRequestToken(rt, call.value, payload, t);
  }

  /** The verify-pin saga after `callApi` has returned. */
  method FinishAccessToken(rt: Runtime, res: CallResult)
    modifies rt
    ensures var run := AfterAccessToken(res, old(rt.storage), rt.failing);
      rt.effects == old(rt.effects) + run.effects && rt.storage == run.storage && run.ending == Finished(())
  {
    var captureSuccessMeta := CapturedMeta(res);
    if res.ok && !Truthy(OptProp(captureSuccessMeta, "error")) {
      var captureSuccessPayload := if res.captured.Some? then res.captured.value.0 else Undef;
      if !Nullish(captureSuccessPayload) {
        var authToken := OptProp(captureSuccessPayload, "oauth_token");
        var authTokenSecret := OptProp(captureSuccessPayload, "oauth_token_secret");
        WriteBoth(rt, ("authToken", authToken), ("authTokenSecret", authTokenSecret));
      }
    }
  }

  /** `callApi(getRequest, …)` for the access token, then the rest of the
      verify-pin saga. */
  method ExchangeAccessToken(rt: Runtime, call: ApiCall, t: Transport) returns (ending: Ending<()>)
    modifies rt
    ensures var run := AccessTokenExchange(call, t, old(rt.storage), rt.failing);
      rt.effects == old(rt.effects) + run.effects && rt.storage == run.storage && ending == run.ending
  {
    var apiResult := CallApi(rt, call, t, TokenOptions(AccessTokenType));
    if apiResult.Crashed? {
      return Crashed(apiResult.error);
    }
    FinishAccessToken(rt, apiResult.value);
    AppendAssociates(old(rt.effects), CallApiTrace(call, t, TokenOptions(AccessTokenType)).effects,
                     AfterAccessToken(apiResult.value, old(rt.storage), rt.failing).effects);
    ending := Finished(());
  }

  /** The first half of the verify-pin saga: select, destructure and sign. */
  method AccessTokenRequestCall(pin: Val, credentials: Val, requestToken: Val, e: Entropy, json: Val -> string)
    returns (call: Ending<ApiCall>)
    requires EnoughPicks(e)
    ensures call == AccessTokenCall(pin, credentials, requestToken, e, json)
  {
    if Nullish(credentials) || Nullish(requestToken) {
      return Crashed(TypeError);
    }
    var token := Obj(map["key" := OptProp(requestToken, "oauth_token"), "secret" := OptProp(requestToken, "oauth_token_secret")]);
    var oauth := SagaOauth(OptProp(credentials, "key"), OptProp(credentials, "secret"));
    var headers := SignHandshake(oauth, AccessTokenRequest(pin), token, Obj(map["oauth_verifier" := pin]), e, json);
    if headers.Crashed? {
      return Crashed(headers.error);
    }
    call := Finished(GetRequest(Str(SmugmugAccessTokenUrl), headers.value));
  }

  /** `smugmugVerifyPinSaga({ payload })`, given what the two selectors
      answer. */
  method VerifyPin(rt: Runtime, pin: Val, credentials: Val, requestToken: Val, e: Entropy, json: Val -> string,
                   t: Transport) returns (ending: Ending<()>)
    requires EnoughPicks(e)
    modifies rt
    ensures var run := VerifyPinRun(pin, credentials, requestToken, e, json, t, old(rt.storage), rt.failing);
      rt.effects == old(rt.effects) + run.effects && rt.storage == run.storage && ending == run.ending
  {
    var call := AccessTokenRequestCall(pin, credentials, requestToken, e, json);
    if call.Crashed? {
      return Crashed(call.error);
    }
    ending := ExchangeAccessToken(rt, call.value, t);
  }

  // ---------------------------------------------------------------------
  // What the handshake steps do

  /** `oauth_token` is none of the other field names. */
  lemma TokenFieldName()
    ensures "oauth_token" !in OauthKeys
    ensures "oauth_token" != "oauth_body_hash" && "oauth_token" != "oauth_signature"
  {
    FieldNamesDistinct();
    assert |"oauth_token"| == 11 && |"oauth_consumer_key"| == 18 && |"oauth_signature_method"| == 22;
    assert |"oauth_timestamp"| == 15 && |"oauth_version"| == 13 && |"oauth_body_hash"| == 15 && |"oauth_signature"| == 15;
  }

  /** Under a PLAINTEXT signer, whose hash answers the key, the signature
      added to the gathered fields is the signing key itself. */
  lemma PlaintextSignature(oauth: Oauth, request: Request, token: Val, e: Entropy, json: Val -> string)
    requires oauth.nonceLength <= |e.picks| && ValidPicks(e.picks)
    requires forall b, k :: oauth.hashFunction(b, k) == k
    requires !token.Null? && UrlToObject(request.url).Some?
    ensures var signed := oauth.Authorized(request, token, e.picks, e.timestamp, json);
      signed.Ok?
      && signed.value == oauth.UnsignedFields(WithDefaultData(request), token, e.picks, e.timestamp, json)
                           ["oauth_signature" := Str(oauth.SigningKey(OptProp(token, "secret")))]
  {
    oauth.AuthorizedSigned(request, token, e.picks, e.timestamp, json);
  }

  /** A request signed by a PLAINTEXT signer: `oauth_token` is signed
      exactly when the token's key is truthy, the consumer key and the
      method are the signer's, and the signature is the signing key over
      the token's secret. */
  lemma PlaintextSigned(oauth: Oauth, request: Request, token: Val, e: Entropy, json: Val -> string)
    requires oauth.nonceLength <= |e.picks| && ValidPicks(e.picks)
    requires forall b, k :: oauth.hashFunction(b, k) == k
    requires !token.Null? && UrlToObject(request.url).Some?
    ensures var signed := oauth.Authorized(request, token, e.picks, e.timestamp, json);
      signed.Ok?
      && ("oauth_token" in signed.value <==> Truthy(OptProp(token, "key")))
      && ("oauth_token" in signed.value ==> signed.value["oauth_token"] == OptProp(token, "key"))
      && "oauth_consumer_key" in signed.value && signed.value["oauth_consumer_key"] == OptProp(oauth.consumer, "key")
      && "oauth_signature_method" in signed.value && signed.value["oauth_signature_method"] == oauth.signatureMethod
      && "oauth_signature" in signed.value && signed.value["oauth_signature"] == Str(oauth.SigningKey(OptProp(token, "secret")))
  {
    PlaintextSignature(oauth, request, token, e, json);
    var req := WithDefaultData(request);
    oauth.UnsignedFieldsKeys(req, token, e.picks, e.timestamp, json);
    oauth.UnsignedFieldsValues(req, token, e.picks, e.timestamp, json);
    TokenFieldName();
  }

  /** An extra field whose name starts with `oauth_` reaches the header with
      its value. */
  lemma ExtraFieldInHeader(oauth: Oauth, fields: map<string, Val>, extra: map<string, Val>, k: string)
    requires k in extra && StartsWith(k, "oauth_")
    ensures var items := oauth.HeaderItems(Obj(fields), Obj(extra));
      exists i :: 0 <= i < |items| && items[i] == OauthParams.Entry(k, extra[k])
  {
    var items := oauth.HeaderItems(Obj(fields), Obj(extra));
    var merged := MergeObjects(Obj(fields), Obj(extra));
    assert Spread(Obj(extra)) == extra;
    assert k in merged && merged[k] == extra[k];
    oauth.HeaderItemsAre(Obj(fields), Obj(extra));
    assert k in EntryKeys(items);
    var i :| 0 <= i < |items| && EntryKeys(items)[i] == k;
    assert items[i].key == k && items[i].value == merged[k];
  }

  /** A field in neither the signed fields nor the extra fields is not in
      the header. */
  lemma FieldNotInHeader(oauth: Oauth, fields: map<string, Val>, extra: map<string, Val>, k: string)
    requires k !in fields && k !in extra
    ensures k !in EntryKeys(oauth.HeaderItems(Obj(fields), Obj(extra)))
  {
    oauth.HeaderItemsAre(Obj(fields), Obj(extra));
  }

  /** The saga signer's consumer key is the one it was made with. */
  lemma SagaConsumerKey(key: Val, secret: Val)
    ensures OptProp(SagaOauth(key, secret).consumer, "key") == key
  {
    var m := map["key" := key, "secret" := secret];
    assert Prop(Obj(m), "key") == Some(key);
  }

  /** The request-token step cannot throw once the payload is destructured:
      it posts `{ oauth_callback: 'oob' }` to the request-token URL with
      `Accept: application/json` and the header of the fields signed
      under the payload's key and secret with no token, plus the callback. */
  lemma RequestTokenCallShape(payload: Val, e: Entropy, json: Val -> string)
    requires EnoughPicks(e) && !Nullish(payload)
    ensures var oauth := SagaOauth(OptProp(payload, "smugmugApiKey"), OptProp(payload, "smugmugApiSecret"));
      var signed := oauth.Authorized(RequestTokenRequest(), Undef, e.picks, e.timestamp, json);
      signed.Ok?
      && RequestTokenCall(payload, e, json) ==
           Finished(PostRequest(Str(SmugmugRequestTokenUrl), OobCallback,
                                Obj(map["Accept" := AcceptJson, "Authorization" := Str(oauth.HeaderValue(Obj(signed.value), OobCallback))])))
  {
    HandshakeUrlsPlain();
  }

  /** The request-token fields: no `oauth_token`, the payload's API key as
      consumer key, and the signing key with no token secret as the
      (PLAINTEXT) signature. */
  lemma RequestTokenSigned(payload: Val, e: Entropy, json: Val -> string)
    requires EnoughPicks(e) && !Nullish(payload)
    ensures var oauth := SagaOauth(OptProp(payload, "smugmugApiKey"), OptProp(payload, "smugmugApiSecret"));
      var signed := oauth.Authorized(RequestTokenRequest(), Undef, e.picks, e.timestamp, json);
      signed.Ok?
      && "oauth_token" !in signed.value
      && "oauth_consumer_key" in signed.value && signed.value["oauth_consumer_key"] == OptProp(payload, "smugmugApiKey")
      && "oauth_signature" in signed.value && signed.value["oauth_signature"] == Str(oauth.SigningKey(Undef))
  {
    var oauth := SagaOauth(OptProp(payload, "smugmugApiKey"), OptProp(payload, "smugmugApiSecret"));
    HandshakeUrlsPlain();
    assert OptProp(Undef, "key") == Undef && OptProp(Undef, "secret") == Undef;
    PlaintextSigned(oauth, RequestTokenRequest(), Undef, e, json);
    SagaConsumerKey(OptProp(payload, "smugmugApiKey"), OptProp(payload, "smugmugApiSecret"));
  }

  /** With no `oauth_token` among the signed fields, the request-token
      header carries `oauth_callback="oob"` and no token. */
  lemma CallbackHeader(oauth: Oauth, fields: map<string, Val>)
    requires "oauth_token" !in fields
    ensures var items := oauth.HeaderItems(Obj(fields), OobCallback);
      "oauth_token" !in EntryKeys(items)
      && exists i :: 0 <= i < |items| && items[i] == OauthParams.Entry("oauth_callback", Str("oob"))
  {
    assert StartsWith("oauth_callback", "oauth_") by { assert "oauth_callback"[..6] == "oauth_"; }
    ExtraFieldInHeader(oauth, fields, OobCallback.props, "oauth_callback");
    FieldNotInHeader(oauth, fields, OobCallback.props, "oauth_token");
  }

  /** The verify step cannot throw once both selections are destructured:
      it gets the access-token URL with `Accept: application/json` and the
      header of the fields signed under the consumer credentials and the
      request token, plus the pin as `oauth_verifier`. */
  lemma AccessTokenCallShape(pin: Val, credentials: Val, requestToken: Val, e: Entropy, json: Val -> string)
    requires EnoughPicks(e) && !Nullish(credentials) && !Nullish(requestToken)
    ensures var oauth := ConsumerOauth(credentials);
      var signed := oauth.Authorized(AccessTokenRequest(pin), RequestTokenPair(requestToken), e.picks, e.timestamp, json);
      signed.Ok?
      && AccessTokenCall(pin, credentials, requestToken, e, json) ==
           Finished(GetRequest(Str(SmugmugAccessTokenUrl),
                               Obj(map["Accept" := AcceptJson,
                                       "Authorization" := Str(oauth.HeaderValue(Obj(signed.value), Obj(map["oauth_verifier" := pin])))])))
  {
    HandshakeUrlsPlain();
  }

  /** The access-token fields: `oauth_token` is the request token's, signed
      exactly when it is truthy; the consumer key is the selected one; the
      (PLAINTEXT) signature is the signing key over the request token's
      secret. */
  lemma AccessTokenSigned(pin: Val, credentials: Val, requestToken: Val, e: Entropy, json: Val -> string)
    requires EnoughPicks(e) && !Nullish(credentials) && !Nullish(requestToken)
    ensures var oauth := ConsumerOauth(credentials);
      var signed := oauth.Authorized(AccessTokenRequest(pin), RequestTokenPair(requestToken), e.picks, e.timestamp, json);
      signed.Ok?
      && ("oauth_token" in signed.value <==> Truthy(OptProp(requestToken, "oauth_token")))
      && ("oauth_token" in signed.value ==> signed.value["oauth_token"] == OptProp(requestToken, "oauth_token"))
      && "oauth_consumer_key" in signed.value && signed.value["oauth_consumer_key"] == OptProp(credentials, "key")
      && "oauth_signature" in signed.value && signed.value["oauth_signature"] == Str(oauth.SigningKey(OptProp(requestToken, "oauth_token_secret")))
  {
    var token := RequestTokenPair(requestToken);
    HandshakeUrlsPlain();
    PlaintextSigned(ConsumerOauth(credentials), AccessTokenRequest(pin), token, e, json);
    SagaConsumerKey(OptProp(credentials, "key"), OptProp(credentials, "secret"));
    TokenPairParts(requestToken);
  }

  /** The token pair's key and secret are the request token's. */
  lemma TokenPairParts(requestToken: Val)
    ensures OptProp(RequestTokenPair(requestToken), "key") == OptProp(requestToken, "oauth_token")
    ensures OptProp(RequestTokenPair(requestToken), "secret") == OptProp(requestToken, "oauth_token_secret")
  {
    var m := map["key" := OptProp(requestToken, "oauth_token"), "secret" := OptProp(requestToken, "oauth_token_secret")];
    assert Prop(Obj(m), "key") == Some(m["key"]) && Prop(Obj(m), "secret") == Some(m["secret"]);
  }

  /** The pin passed as an extra field reaches the header. */
  lemma VerifierHeader(oauth: Oauth, fields: map<string, Val>, pin: Val)
    ensures var items := oauth.HeaderItems(Obj(fields), Obj(map["oauth_verifier" := pin]));
      exists i :: 0 <= i < |items| && items[i] == OauthParams.Entry("oauth_verifier", pin)
  {
    assert StartsWith("oauth_verifier", "oauth_") by { assert "oauth_verifier"[..6] == "oauth_"; }
    ExtraFieldInHeader(oauth, fields, map["oauth_verifier" := pin], "oauth_verifier");
  }

  /** A token call answered with a body that parses as a query sends the
      request, dispatches the step's data action carrying the parsed fields
      with response meta, and succeeds, having captured those fields. */
  lemma TokenCallSucceeds(c: ApiCall, actionType: string, body: string)
    requires ParseQuery(body).Some?
    ensures var parsed := Obj(ParseQuery(body).value);
      CallApiTrace(c, Responded(Str(body)), TokenOptions(actionType)) ==
        Trace([Send(Obj(SendOptions(c))), Dispatch(DataAction(actionType, parsed, DataResponseMeta))],
              Finished(CallResult(true, Some((parsed, DataResponseMeta)))))
  {
    var o := TokenOptions(actionType);
    var parsed := Obj(ParseQuery(body).value);
    assert Prop(Str(body), "isError") == Some(Undef);
    assert o.SuccessPayload(Str(body)) == Some(parsed);
    assert MakeDataResponseMeta(Undef) == DataResponseMeta;
    assert AfterSuccess(Str(body), o) == Trace([Dispatch(DataAction(actionType, parsed, DataResponseMeta))],
              Finished(CallResult(true, Some((parsed, DataResponseMeta)))));
    assert AfterSettle(Returned(Str(body)), o) == AfterSuccess(Str(body), o);
  }

  /** The response meta carries no error, so a captured success proceeds. */
  lemma ResponseMetaProceeds(payload: Val)
    ensures Proceeds(CallResult(true, Some((payload, DataResponseMeta))))
  {
    assert OptProp(DataResponseMeta, "error") == Undef;
  }

  /** A call step whose call finishes runs the call's effects and then the
      step's continuation on the call's result. */
  lemma CallThenFinished(c: ApiCall, t: Transport, o: CallOptions, storage: map<string, Val>, after: CallResult -> Run)
    requires CallApiTrace(c, t, o).ending.Finished?
    ensures var tr := CallApiTrace(c, t, o);
      CallThen(c, t, o, storage, after) == Then(tr.effects, after(tr.ending.value))
  {
  }

  /** After a successful request-token call that captured a token: the two
      writes, then the authorization URL for that token. */
  lemma AfterRequestTokenProceeds(payload: Val, parsed: map<string, Val>, storage: map<string, Val>, failing: set<string>)
    requires "oauth_token" in parsed
    ensures var w := WritePair(storage, failing, ("smugmugApiKey", OptProp(payload, "smugmugApiKey")),
                                                 ("smugmugApiSecret", OptProp(payload, "smugmugApiSecret")));
      AfterRequestToken(payload, CallResult(true, Some((Obj(parsed), DataResponseMeta))), storage, failing) ==
        Run(w.effects + [Dispatch(DataAction(AuthorizationUrlType, Str(AuthorizationUrl(parsed["oauth_token"])), DataResponseMeta))],
            w.storage, Finished(()))
  {
    var res := CallResult(true, Some((Obj(parsed), DataResponseMeta)));
    ResponseMetaProceeds(Obj(parsed));
    assert Prop(Obj(parsed), "oauth_token") == Some(parsed["oauth_token"]);
    assert MakeDataResponseMeta(Undef) == DataResponseMeta;
    assert AuthorizationUrlAction(res) ==
      Finished(DataAction(AuthorizationUrlType, Str(AuthorizationUrl(parsed["oauth_token"])), DataResponseMeta));
  }

  /** On request-token success the step saves the API key and then the
      secret (the second write is skipped when the first throws, and the
      error is swallowed) and then, whatever storage did, dispatches the
      authorization URL for the returned token. */
  lemma RequestTokenSucceeds(c: ApiCall, payload: Val, body: string,
                             storage: map<string, Val>, failing: set<string>)
    requires ParseQuery(body).Some? && "oauth_token" in ParseQuery(body).value
    ensures var parsed := ParseQuery(body).value;
      var w := WritePair(storage, failing, ("smugmugApiKey", OptProp(payload, "smugmugApiKey")),
                                           ("smugmugApiSecret", OptProp(payload, "smugmugApiSecret")));
      RequestTokenExchange(c, payload, Responded(Str(body)), storage, failing) ==
        Run([Send(Obj(SendOptions(c))), Dispatch(DataAction(RequestTokenType, Obj(parsed), DataResponseMeta))]
              + w.effects
              + [Dispatch(DataAction(AuthorizationUrlType, Str(AuthorizationUrl(parsed["oauth_token"])), DataResponseMeta))],
            w.storage, Finished(()))
  {
    var parsed := ParseQuery(body).value;
    var t, o := Responded(Str(body)), TokenOptions(RequestTokenType);
    TokenCallSucceeds(c, RequestTokenType, body);
    var after := res => AfterRequestToken(payload, res, storage, failing);
    CallThenFinished(c, t, o, storage, after);
    AfterRequestTokenProceeds(payload, parsed, storage, failing);
    var w := WritePair(storage, failing, ("smugmugApiKey", OptProp(payload, "smugmugApiKey")),
                                         ("smugmugApiSecret", OptProp(payload, "smugmugApiSecret")));
    AppendAssociates(CallApiTrace(c, t, o).effects, w.effects,
      [Dispatch(DataAction(AuthorizationUrlType, Str(AuthorizationUrl(parsed["oauth_token"])), DataResponseMeta))]);
  }

  /** A token call that does not succeed: it crashes, or settles without
      `ok`. */
  predicate CallFails(c: ApiCall, t: Transport, actionType: string) {
    var tr := CallApiTrace(c, t, TokenOptions(actionType));
    !(tr.ending.Finished? && tr.ending.value.ok)
  }

  /** A call step whose call fails runs only the call's effects, provided
      the continuation does nothing on a result without `ok`. */
  lemma CallThenFails(c: ApiCall, t: Transport, o: CallOptions, storage: map<string, Val>, after: CallResult -> Run)
    requires var tr := CallApiTrace(c, t, o); !(tr.ending.Finished? && tr.ending.value.ok)
    requires var tr := CallApiTrace(c, t, o); tr.ending.Finished? ==> after(tr.ending.value).effects == []
    requires var tr := CallApiTrace(c, t, o); tr.ending.Finished? ==> after(tr.ending.value).storage == storage
    ensures var run := CallThen(c, t, o, storage, after);
      run.effects == CallApiTrace(c, t, o).effects && run.storage == storage
  {
    var tr := CallApiTrace(c, t, o);
    if tr.ending.Finished? {
      assert tr.effects + [] == tr.effects;
    }
  }

  /** On request-token failure the step writes nothing and dispatches no
      URL: its effects are the call's own. */
  lemma RequestTokenFails(c: ApiCall, payload: Val, t: Transport, storage: map<string, Val>, failing: set<string>)
    requires CallFails(c, t, RequestTokenType)
    ensures var run := RequestTokenExchange(c, payload, t, storage, failing);
      run.effects == CallApiTrace(c, t, TokenOptions(RequestTokenType)).effects && run.storage == storage
      && forall i :: 0 <= i < |run.effects| ==> !run.effects[i].StorageWrite?
  {
    CallThenFails(c, t, TokenOptions(RequestTokenType), storage, res => AfterRequestToken(payload, res, storage, failing));
    CallApiWritesNothing(c, t, TokenOptions(RequestTokenType));
  }

  /** On verify success the step saves the returned `oauth_token` as
      `authToken` and then `oauth_token_secret` as `authTokenSecret`, and
      nothing else. */
  lemma AccessTokenSucceeds(c: ApiCall, body: string, storage: map<string, Val>, failing: set<string>)
    requires ParseQuery(body).Some?
    ensures var parsed := Obj(ParseQuery(body).value);
      var w := WritePair(storage, failing, ("authToken", OptProp(parsed, "oauth_token")),
                                           ("authTokenSecret", OptProp(parsed, "oauth_token_secret")));
      AccessTokenExchange(c, Responded(Str(body)), storage, failing) ==
        Run([Send(Obj(SendOptions(c))), Dispatch(DataAction(AccessTokenType, parsed, DataResponseMeta))] + w.effects,
            w.storage, Finished(()))
  {
    var t, o := Responded(Str(body)), TokenOptions(AccessTokenType);
    TokenCallSucceeds(c, AccessTokenType, body);
    ResponseMetaProceeds(Obj(ParseQuery(body).value));
    CallThenFinished(c, t, o, storage, res => AfterAccessToken(res, storage, failing));
  }

  /** On verify failure the step writes nothing: its effects are the
      call's own. */
  lemma AccessTokenFails(c: ApiCall, t: Transport, storage: map<string, Val>, failing: set<string>)
    requires CallFails(c, t, AccessTokenType)
    ensures var run := AccessTokenExchange(c, t, storage, failing);
      run.effects == CallApiTrace(c, t, TokenOptions(AccessTokenType)).effects && run.storage == storage
      && forall i :: 0 <= i < |run.effects| ==> !run.effects[i].StorageWrite?
  {
    CallThenFails(c, t, TokenOptions(AccessTokenType), storage, res => AfterAccessToken(res, storage, failing));
    CallApiWritesNothing(c, t, TokenOptions(AccessTokenType));
  }

  // ---------------------------------------------------------------------
  // smugmugLoadFromLocalStorageSaga

  /** The keys the load step reads, in order. */
  const StoredKeys: seq<string> := ["authToken", "authTokenSecret", "smugmugApiKey", "smugmugApiSecret"]

  /** The reads of the keys in order, the last one being the first that
      throws. */
  function Reads(keys: seq<string>, failing: set<string>): (r: seq<Effect>)
    ensures |r| <= |keys|
    ensures forall i :: 0 <= i < |r| ==> r[i] == StorageRead(keys[i])
    ensures |r| < |keys| ==> 0 < |r| && keys[|r| - 1] in failing
    ensures forall i :: 0 <= i < |r| - 1 ==> keys[i] !in failing
    ensures (forall i :: 0 <= i < |keys| ==> keys[i] !in failing) ==> |r| == |keys|
    decreases |keys|
  {
    if keys == [] then []
    else if keys[0] in failing then [StorageRead(keys[0])]
    else
      var rest := Reads(keys[1..], failing);
      ReadsCons(keys, failing, rest);
      [StorageRead(keys[0])] + rest
  }

  /** The step of Reads past a key that does not throw. */
  lemma ReadsCons(keys: seq<string>, failing: set<string>, rest: seq<Effect>)
    requires keys != [] && keys[0] !in failing
    requires |rest| <= |keys[1..]|
    requires forall i :: 0 <= i < |rest| ==> rest[i] == StorageRead(keys[1..][i])
    requires |rest| < |keys[1..]| ==> 0 < |rest| && keys[1..][|rest| - 1] in failing
    requires forall i :: 0 <= i < |rest| - 1 ==> keys[1..][i] !in failing
    requires (forall i :: 0 <= i < |keys[1..]| ==> keys[1..][i] !in failing) ==> |rest| == |keys[1..]|
    ensures var r := [StorageRead(keys[0])] + rest;
      |r| <= |keys|
      && (forall i :: 0 <= i < |r| ==> r[i] == StorageRead(keys[i]))
      && (|r| < |keys| ==> 0 < |r| && keys[|r| - 1] in failing)
      && (forall i :: 0 <= i < |r| - 1 ==> keys[i] !in failing)
      && ((forall i :: 0 <= i < |keys| ==> keys[i] !in failing) ==> |r| == |keys|)
  {
    var r := [StorageRead(keys[0])] + rest;
    forall i | 0 <= i < |r| ensures r[i] == StorageRead(keys[i]) {
      if i > 0 {
        assert r[i] == rest[i - 1] && keys[1..][i - 1] == keys[i];
      }
    }
    forall i | 0 <= i < |r| - 1 ensures keys[i] !in failing {
      if i > 0 {
        assert keys[1..][i - 1] == keys[i];
      }
    }
    if forall i :: 0 <= i < |keys| ==> keys[i] !in failing {
      forall i | 0 <= i < |keys[1..]| ensures keys[1..][i] !in failing {
        assert keys[1..][i] == keys[i + 1];
      }
    }
  }

  /** The rest of a load step once `values` have been read: the remaining
      reads in order, then one action carrying every value read; a read that
      throws ends the step there (the error is swallowed). */
  function LoadFrom(keys: seq<string>, values: map<string, Val>, actionType: string,
                    storage: map<string, Val>, failing: set<string>): Run
    decreases |keys|
  {
    if keys == [] then
      Run([Dispatch(DataAction(actionType, Obj(values), MakeDataResponseMeta(Undef)))], storage, Finished(()))
    else if keys[0] in failing then Run([StorageRead(keys[0])], storage, Finished(()))
    else
      var rest := LoadFrom(keys[1..], values[keys[0] := StoredValue(storage, failing, keys[0]).value], actionType, storage, failing);
      Run([StorageRead(keys[0])] + rest.effects, rest.storage, rest.ending)
  }

  /** A load step over the keys, nothing read yet. */
  function LoadRun(keys: seq<string>, actionType: string, storage: map<string, Val>, failing: set<string>): Run {
    LoadFrom(keys, map[], actionType, storage, failing)
  }

  /** What the stored values of the keys make of `values`: each key holds
      its stored value, or null when nothing is stored. */
  ghost predicate HoldsStored(result: map<string, Val>, values: map<string, Val>, keys: seq<string>, storage: map<string, Val>) {
    (forall k :: k in result <==> k in values || k in keys)
    && (forall k :: k in result ==> result[k] == if k in keys then (if k in storage then storage[k] else Null) else values[k])
  }

  /** No key's storage call throws. */
  ghost predicate AllRead(keys: seq<string>, failing: set<string>) {
    forall i :: 0 <= i < |keys| ==> keys[i] !in failing
  }

  /** `values` with the keys' stored values added in order. */
  function Gathered(keys: seq<string>, values: map<string, Val>, storage: map<string, Val>, failing: set<string>): map<string, Val>
    decreases |keys|
  {
    if keys == [] || keys[0] in failing then values
    else Gathered(keys[1..], values[keys[0] := StoredValue(storage, failing, keys[0]).value], storage, failing)
  }

  /** The rest of a load step is the remaining reads up to the first that
      throws, followed, when none throws, by one dispatch of what was
      gathered. */
  lemma {:induction false} LoadFromTrace(keys: seq<string>, values: map<string, Val>, actionType: string,
                                         storage: map<string, Val>, failing: set<string>)
    ensures var run := LoadFrom(keys, values, actionType, storage, failing);
      run.storage == storage && run.ending == Finished(())
      && run.effects == Reads(keys, failing)
           + (if AllRead(keys, failing)
              then [Dispatch(DataAction(actionType, Obj(Gathered(keys, values, storage, failing)), DataResponseMeta))]
              else [])
    decreases |keys|
  {
    if keys != [] && keys[0] !in failing {
      var v := StoredValue(storage, failing, keys[0]).value;
      LoadFromTrace(keys[1..], values[keys[0] := v], actionType, storage, failing);
      assert AllRead(keys, failing) <==> AllRead(keys[1..], failing) by {
        forall i | 1 <= i < |keys| ensures keys[i] == keys[1..][i - 1] { }
      }
    }
  }

  /** What is gathered holds every key with its stored value, or null when
      nothing is stored, besides what was there before. */
  lemma {:induction false} GatheredHoldsStored(keys: seq<string>, values: map<string, Val>, storage: map<string, Val>, failing: set<string>)
    requires AllRead(keys, failing)
    ensures HoldsStored(Gathered(keys, values, storage, failing), values, keys, storage)
    decreases |keys|
  {
    if keys != [] {
      var v := StoredValue(storage, failing, keys[0]).value;
      assert AllRead(keys[1..], failing) by {
        forall i | 0 <= i < |keys[1..]| ensures keys[1..][i] == keys[i + 1] { }
      }
      GatheredHoldsStored(keys[1..], values[keys[0] := v], storage, failing);
      forall k ensures k in keys <==> k == keys[0] || k in keys[1..] {
        if k in keys && k != keys[0] {
          var i :| 0 <= i < |keys| && keys[i] == k;
          assert keys[1..][i - 1] == k;
        }
      }
    }
  }

  /** The load step reads the keys in order and stops at the first that
      throws; it dispatches one action, carrying every key with its stored
      value (null when nothing is stored), exactly when no read throws; it
      never writes. */
  lemma {:induction false} LoadRunEffects(keys: seq<string>, actionType: string, storage: map<string, Val>, failing: set<string>)
    ensures var run := LoadRun(keys, actionType, storage, failing);
      var readEffects := Reads(keys, failing);
      run.storage == storage && run.ending == Finished(())
      && |readEffects| <= |run.effects| && run.effects[..|readEffects|] == readEffects
      && ((forall i :: 0 <= i < |keys| ==> keys[i] !in failing) ==>
            |run.effects| == |keys| + 1
            && exists values :: run.effects[|keys|] == Dispatch(DataAction(actionType, Obj(values), DataResponseMeta))
                 && (forall k :: k in values <==> k in keys)
                 && (forall k :: k in values ==> values[k] == if k in storage then storage[k] else Null))
      && (!(forall i :: 0 <= i < |keys| ==> keys[i] !in failing) ==> run.effects == readEffects)
  {
    LoadFromTrace(keys, map[], actionType, storage, failing);
    if AllRead(keys, failing) {
      var values := Gathered(keys, map[], storage, failing);
      GatheredHoldsStored(keys, map[], storage, failing);
      assert LoadRun(keys, actionType, storage, failing).effects[|keys|]
        == Dispatch(DataAction(actionType, Obj(values), DataResponseMeta));
    }
  }

  /** `smugmugLoadFromLocalStorageSaga()` */
  method LoadFromLocalStorage(rt: Runtime) returns (ending: Ending<()>)
    modifies rt
    ensures var run := LoadRun(StoredKeys, LoadFromLocalStorageType, old(rt.storage), rt.failing);
      rt.effects == old(rt.effects) + run.effects && rt.storage == run.storage && ending == run.ending
  {
    ghost var storage, failing := rt.storage, rt.failing;
    var authToken := rt.Read("authToken");
    if authToken.None? {
      assert LoadRun(StoredKeys, LoadFromLocalStorageType, storage, failing) == Run([StorageRead("authToken")], storage, Finished(()));
      return Finished(());
    }
    var authTokenSecret := rt.Read("authTokenSecret");
    if authTokenSecret.None? {
      assert LoadFrom(StoredKeys[1..], map["authToken" := authToken.value], LoadFromLocalStorageType, storage, failing)
        == Run([StorageRead("authTokenSecret")], storage, Finished(()));
      return Finished(());
    }
    var values := map["authToken" := authToken.value, "authTokenSecret" := authTokenSecret.value];
    ghost var rest := LoadFrom(StoredKeys[2..], values, LoadFromLocalStorageType, storage, failing);
    ghost var first := LoadFrom(StoredKeys[1..], map["authToken" := authToken.value], LoadFromLocalStorageType, storage, failing);
    assert StoredKeys[1..][1..] == StoredKeys[2..];
    assert first == Run([StorageRead("authTokenSecret")] + rest.effects, rest.storage, rest.ending);
    assert LoadRun(StoredKeys, LoadFromLocalStorageType, storage, failing)
      == Run([StorageRead("authToken")] + first.effects, first.storage, first.ending);
    ending := LoadApiKeys(rt, values);
    AppendAssociates(old(rt.effects), [StorageRead("authToken"), StorageRead("authTokenSecret")], rest.effects);
  }

  /** The rest of `smugmugLoadFromLocalStorageSaga()` once the token and its
      secret have been read: the API key and secret, then the action. */
  method LoadApiKeys(rt: Runtime, values: map<string, Val>) returns (ending: Ending<()>)
    modifies rt
    ensures var run := LoadFrom(StoredKeys[2..], values, LoadFromLocalStorageType, old(rt.storage), rt.failing);
      rt.effects == old(rt.effects) + run.effects && rt.storage == run.storage && ending == run.ending
  {
    var smugmugApiKey := rt.Read("smugmugApiKey");
    if smugmugApiKey.None? { return Finished(()); }
    var smugmugApiSecret := rt.Read("smugmugApiSecret");
    if smugmugApiSecret.None? { return Finished(()); }
    var payload := values["smugmugApiKey" := smugmugApiKey.value]["smugmugApiSecret" := smugmugApiSecret.value];
    rt.Put(DataAction(LoadFromLocalStorageType, Obj(payload), MakeDataResponseMeta(Undef)));
    ghost var keys := StoredKeys[2..];
    assert keys == ["smugmugApiKey", "smugmugApiSecret"] && keys[1..][1..] == [];
    assert LoadFrom(keys[1..][1..], payload, LoadFromLocalStorageType, rt.storage, rt.failing).effects
      == [Dispatch(DataAction(LoadFromLocalStorageType, Obj(payload), MakeDataResponseMeta(Undef)))];
    return Finished(());
  }
}
