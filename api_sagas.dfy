/** The older saga layer, kept beside the newer one: its own `callApi`
    (no error-response branch, no snackbars), the request-token step (which
    does not save the consumer credentials), the verify step, the first
    authenticated test request, the unauthenticated test request and the
    two-key load step. The signing and token parsing are the newer layer's. */
module LegacySagas {
  import opened JsValues
  import opened ActionMeta
  import opened StringOrder
  import opened PercentCodec
  import opened QueryString
  import opened OauthParams
  import opened OauthSigner
  import opened SagaRuntime
  import opened ApiUtils
  import opened AuthSagas
  import ApiReducers

  /** Type of `smugmugTestDataAction`. */
  const TestDataType: string := ActionType("SMUGMUG_TEST_DATA")

  // ---------------------------------------------------------------------
  // makeSmugmugRequest and callApi of the older layer

  /** The older `makeSmugmugRequest` settles with the response data or
      rethrows the transport's error unchanged. */
  function LegacySettle(t: Transport): (r: Settled)
    ensures r.Returned? <==> t.Responded?
  {
    match t
    case Responded(data) => Returned(data)
    case Failed(err) => Threw(err)
  }

  /** The two layers settle alike exactly on a response, or on an error
      that is an object carrying no response data: the newer layer turns an
      error with data into an `isError` value and a null error into a
      TypeError, where the older one rethrows. */
  lemma SettleAgrees(t: Transport)
    ensures LegacySettle(t) == Settle(t) <==> t.Responded? || (!Nullish(t.err) && !Truthy(ErrorData(t.err)))
  {
  }

  /** The options the older `callApi` reads. */
  datatype LegacyOptions = LegacyOptions(
    successAction: Option<Creator>,
    successPayloadTransform: Option<Val -> Option<Val>>,
    errorAction: Option<Creator>)

  /** `makeDataResponseMeta({ error: true })` */
  function LegacyErrorMeta(): (r: Val)
    ensures r == MakeErrorDataResponseMeta(Undef)
  {
    var r := MakeDataResponseMeta(Obj(map["error" := Bool(true)]));
    assert Spread(Obj(map["error" := Bool(true)])) == map["error" := Bool(true)];
    assert r.props.Keys == {"type", "error"};
    r
  }

  /** The effects of one older `callApi` and its result: it never throws. */
  datatype LegacyCall = LegacyCall(effects: seq<Effect>, result: CallResult)

  /** The rejected branch: the error action, when there is one, with the
      error's message and error meta; false. */
  function LegacyAfterThrow(err: Val, o: LegacyOptions): LegacyCall {
    if o.errorAction.None? then LegacyCall([], CallResult(false, None))
    else LegacyCall([Dispatch(o.errorAction.value.Create(ErrorMessage(err), LegacyErrorMeta()))], CallResult(false, None))
  }

  /** The success branch: the success action, when there is one and the
      transform does not throw; true either way. */
  function LegacyAfterSuccess(response: Val, o: LegacyOptions): LegacyCall {
    var data := if o.successPayloadTransform.Some? then o.successPayloadTransform.value(response) else Some(response);
    if o.successAction.None? || data.None? then LegacyCall([], CallResult(true, None))
    else
      var meta := MakeDataResponseMeta(Undef);
      LegacyCall([Dispatch(o.successAction.value.Create(data.value, meta))], CallResult(true, Some((data.value, meta))))
  }

  /** `callApi(fn, args, options)` of the older layer for the request c
      whose transport outcome is t. */
  function LegacyCallTrace(c: ApiCall, t: Transport, o: LegacyOptions): LegacyCall {
    var rest := match LegacySettle(t)
      case Threw(err) => LegacyAfterThrow(err, o)
      case Returned(response) => LegacyAfterSuccess(response, o);
    LegacyCall([Send(Obj(SendOptions(c)))] + rest.effects, rest.result)
  }

  method LegacyReportThrow(rt: Runtime, err: Val, o: LegacyOptions) returns (result: CallResult)
    modifies rt
    ensures rt.effects == old(rt.effects) + LegacyAfterThrow(err, o).effects
    ensures rt.storage == old(rt.storage) && result == LegacyAfterThrow(err, o).result
  {
    if o.errorAction.Some? {
      var message := ErrorMessage(err);
      rt.Put(o.errorAction.value.Create(message, LegacyErrorMeta()));
    }
    return CallResult(false, None);
  }

  method LegacyDispatchSuccess(rt: Runtime, apiResponse: Val, o: LegacyOptions) returns (result: CallResult)
    modifies rt
    ensures rt.effects == old(rt.effects) + LegacyAfterSuccess(apiResponse, o).effects
    ensures rt.storage == old(rt.storage) && result == LegacyAfterSuccess(apiResponse, o).result
  {
    result := CallResult(true, None);
    if o.successAction.Some? {
      var data := if o.successPayloadTransform.Some? then o.successPayloadTransform.value(apiResponse) else Some(apiResponse);
      if data.Some? {
        var meta := MakeDataResponseMeta(Undef);
        rt.Put(o.successAction.value.Create(data.value, meta));
        result := CallResult(true, Some((data.value, meta)));
      }
    }
  }

  /** The older `callApi`. */
  method LegacyCallApi(rt: Runtime, c: ApiCall, t: Transport, o: LegacyOptions) returns (result: CallResult)
    modifies rt
    ensures rt.effects == old(rt.effects) + LegacyCallTrace(c, t, o).effects
    ensures rt.storage == old(rt.storage)
    ensures result == LegacyCallTrace(c, t, o).result
  {
    rt.SendRequest(Obj(SendOptions(c)));
    ghost var sent := rt.effects;
    var apiResponse := LegacySettle(t);
    if apiResponse.Threw? {
      result := LegacyReportThrow(rt, apiResponse.error, o);
      AppendAssociates(old(rt.effects), [Send(Obj(SendOptions(c)))], LegacyAfterThrow(apiResponse.error, o).effects);
    } else {
      result := LegacyDispatchSuccess(rt, apiResponse.value, o);
      AppendAssociates(old(rt.effects), [Send(Obj(SendOptions(c)))], LegacyAfterSuccess(apiResponse.value, o).effects);
    }
  }

  /** The older `callApi` answers true exactly when the request did not
      reject; it sends once, then dispatches at most one action, and never
      opens a snackbar or touches storage. */
  lemma LegacyCallShape(c: ApiCall, t: Transport, o: LegacyOptions)
    ensures var tr := LegacyCallTrace(c, t, o);
      (tr.result.ok <==> t.Responded?)
      && 1 <= |tr.effects| <= 2 && tr.effects[0] == Send(Obj(SendOptions(c)))
      && (|tr.effects| == 2 ==> tr.effects[1].Dispatch?)
  {
    var tr := LegacyCallTrace(c, t, o);
    var send := Send(Obj(SendOptions(c)));
    match t
    case Failed(err) =>
      AfterThrowShape(err, o);
      assert tr.effects == [send] + LegacyAfterThrow(err, o).effects;
    case Responded(response) =>
      AfterSuccessShape(response, o);
      assert tr.effects == [send] + LegacyAfterSuccess(response, o).effects;
  }

  lemma AfterThrowShape(err: Val, o: LegacyOptions)
    ensures var rest := LegacyAfterThrow(err, o);
      !rest.result.ok && |rest.effects| <= 1 && (|rest.effects| == 1 ==> rest.effects[0].Dispatch?)
  {
  }

  lemma AfterSuccessShape(response: Val, o: LegacyOptions)
    ensures var rest := LegacyAfterSuccess(response, o);
      rest.result.ok && |rest.effects| <= 1 && (|rest.effects| == 1 ==> rest.effects[0].Dispatch?)
  {
  }

  /** On a rejected request: the error action with the error's message and
      error meta when there is an error action, else nothing. */
  lemma LegacyCallRejected(c: ApiCall, err: Val, o: LegacyOptions)
    ensures var tr := LegacyCallTrace(c, Failed(err), o);
      !tr.result.ok && tr.result.captured.None?
      && (o.errorAction.None? <==> |tr.effects| == 1)
      && (o.errorAction.Some? ==> ErrorReported(tr.effects[1].action, o.errorAction.value, ErrorMessage(err)))
  {
    if o.errorAction.Some? {
      ErrorReportedBy(o.errorAction.value, ErrorMessage(err));
    }
  }

  /** There is no error-response branch: a response flagged `isError` is
      reported as a success like any other, and the call answers true. */
  lemma LegacyCallNoErrorBranch(c: ApiCall, data: Val, creator: Creator)
    requires Truthy(OptProp(data, "isError"))
    ensures var tr := LegacyCallTrace(c, Responded(data), LegacyOptions(Some(creator), None, Some(creator)));
      tr.result.ok && |tr.effects| == 2 && SuccessReported(tr.effects[1].action, creator, data)
  {
    SuccessReportedBy(creator, data);
    assert LegacyAfterSuccess(data, LegacyOptions(Some(creator), None, Some(creator))).effects
      == [Dispatch(creator.Create(data, MakeDataResponseMeta(Undef)))];
  }

  /** The success branch alone: one success action with the transformed
      response, captured with response meta, or nothing when the transform
      throws. */
  lemma {:induction false} LegacyAfterSuccessReports(data: Val, o: LegacyOptions)
    requires o.successAction.Some?
    ensures var after := LegacyAfterSuccess(data, o);
      var payload := if o.successPayloadTransform.Some? then o.successPayloadTransform.value(data) else Some(data);
      after.result.ok
      && (payload.None? ==> after.effects == [] && after.result.captured.None?)
      && (payload.Some? ==>
            |after.effects| == 1 && after.effects[0].Dispatch?
            && SuccessReported(after.effects[0].action, o.successAction.value, payload.value)
            && after.result.captured == Some((payload.value, DataResponseMeta)))
  {
    var payload := if o.successPayloadTransform.Some? then o.successPayloadTransform.value(data) else Some(data);
    if payload.Some? {
      SuccessReportedBy(o.successAction.value, payload.value);
    }
  }

  /** A success action gets the transformed response with response meta,
      and that is what is captured; a transform that throws is swallowed,
      leaving only the request. */
  lemma {:induction false} LegacyCallSucceeds(c: ApiCall, data: Val, o: LegacyOptions)
    requires o.successAction.Some?
    ensures var tr := LegacyCallTrace(c, Responded(data), o);
      var payload := if o.successPayloadTransform.Some? then o.successPayloadTransform.value(data) else Some(data);
      tr.result.ok
      && (payload.None? ==> tr.effects == [Send(Obj(SendOptions(c)))] && tr.result.captured.None?)
      && (payload.Some? ==>
            |tr.effects| == 2 && tr.effects[1].Dispatch?
            && SuccessReported(tr.effects[1].action, o.successAction.value, payload.value)
            && tr.result.captured == Some((payload.value, DataResponseMeta)))
  {
    var after := LegacyAfterSuccess(data, o);
    LegacyAfterSuccessReports(data, o);
    var send := Send(Obj(SendOptions(c)));
    assert LegacyCallTrace(c, Responded(data), o) == LegacyCall([send] + after.effects, after.result);
    if |after.effects| == 1 {
      assert ([send] + after.effects)[1] == after.effects[0];
    } else {
      assert [send] + after.effects == [send];
    }
  }

  // ---------------------------------------------------------------------
  // The handshake steps of the older layer

  /** The options of both token calls: the step's creator for success and
      error, the token response parsed as the payload. */
  function LegacyTokenOptions(actionType: string): LegacyOptions {
    LegacyOptions(Some(DataCreator(actionType)), Some(TokenResponse), Some(DataCreator(actionType)))
  }

  /** After the request-token call: on success, dispatch the authorization
      URL and nothing else (the credentials are not saved). */
  function LegacyAfterRequestToken(res: CallResult, storage: map<string, Val>): Run {
    if !Proceeds(res) then Run([], storage, Finished(()))
    else
      match AuthorizationUrlAction(res)
      case Crashed(err) => Run([], storage, Crashed(err))
      case Finished(action) => Run([Dispatch(action)], storage, Finished(()))
  }

  /** `smugmugGetRequestTokenSaga(action)` of the older layer. */
  function LegacyRequestTokenRun(payload: Val, e: Entropy, json: Val -> string, t: Transport, storage: map<string, Val>): Run
    requires EnoughPicks(e)
  {
    match RequestTokenCall(payload, e, json)
    case Crashed(err) => Run([], storage, Crashed(err))
    case Finished(c) => LegacyRequestTokenExchange(c, t, storage)
  }

  /** The older request-token call and what follows it. */
  function LegacyRequestTokenExchange(c: ApiCall, t: Transport, storage: map<string, Val>): Run {
    var tr := LegacyCallTrace(c, t, LegacyTokenOptions(RequestTokenType));
    Then(tr.effects, LegacyAfterRequestToken(tr.result, storage))
  }

  /** The signer of the older verify step: the selected credentials are read
      as `smugmugApiKey` and `smugmugApiSecret`. */
  function LegacyConsumerOauth(credentials: Val): Oauth {
    SagaOauth(OptProp(credentials, "smugmugApiKey"), OptProp(credentials, "smugmugApiSecret"))
  }

  /** The older verify step's call: a GET of the access-token URL signed
      with the selected credentials and the request token. */
  function LegacyAccessTokenCall(pin: Val, credentials: Val, requestToken: Val, e: Entropy, json: Val -> string)
    : Ending<ApiCall>
    requires EnoughPicks(e)
  {
    if Nullish(credentials) || Nullish(requestToken) then Crashed(TypeError)
    else
      match HandshakeHeaders(LegacyConsumerOauth(credentials), AccessTokenRequest(pin), RequestTokenPair(requestToken),
                             Obj(map["oauth_verifier" := pin]), e, json)
      case Crashed(err) => Crashed(err)
      case Finished(headers) => Finished(GetRequest(Str(SmugmugAccessTokenUrl), headers))
  }

  /** `smugmugVerifyPinSaga(action)` of the older layer, given what the
      selectors answer. */
  function LegacyVerifyPinRun(pin: Val, credentials: Val, requestToken: Val, e: Entropy, json: Val -> string,
                              t: Transport, storage: map<string, Val>, failing: set<string>): Run
    requires EnoughPicks(e)
  {
    match LegacyAccessTokenCall(pin, credentials, requestToken, e, json)
    case Crashed(err) => Run([], storage, Crashed(err))
    case Finished(c) => LegacyAccessTokenExchange(c, t, storage, failing)
  }

  /** The older access-token call and what follows it. */
  function LegacyAccessTokenExchange(c: ApiCall, t: Transport, storage: map<string, Val>, failing: set<string>): Run {
    var tr := LegacyCallTrace(c, t, LegacyTokenOptions(AccessTokenType));
    Then(tr.effects, AfterAccessToken(tr.result, storage, failing))
  }

  /** The request-token saga of the older layer after `callApi`. */
  method LegacyFinishRequestToken(rt: Runtime, res: CallResult) returns (ending: Ending<()>)
    modifies rt
    ensures var run := LegacyAfterRequestToken(res, old(rt.storage));
      rt.effects == old(rt.effects) + run.effects && rt.storage == run.storage && ending == run.ending
  {
    var captureSuccessMeta := CapturedMeta(res);
    if !(res.ok && !Truthy(OptProp(captureSuccessMeta, "error"))) {
      return Finished(());
    }
    var captureSuccessPayload := if res.captured.Some? then res.captured.value.0 else Undef;
    var oauthToken := Prop(captureSuccessPayload, "oauth_token");
    if oauthToken.None? {
      return Crashed(TypeError);
    }
    var properties := map["oauth_token" := Str(EncodeURIComponent(ToJsString(oauthToken.value))),
                          "access" := Str("Full"), "permissions" := Str("Modify")];
    var sorted := SortObjectProperties(properties);
    var query, _ := GetDataAsParameterString(sorted);
    var url := SmugmugAuthorizeUrl + "?" + query;
    rt.Put(DataAction(AuthorizationUrlType, Str(url), MakeDataResponseMeta(Undef)));
    ending := Finished(());
  }

  /** `smugmugGetRequestTokenSaga({ payload })` of the older layer. */
  method LegacyGetRequestToken(rt: Runtime, payload: Val, e: Entropy, json: Val -> string, t: Transport)
    returns (ending: Ending<()>)
    requires EnoughPicks(e)
    modifies rt
    ensures var run := LegacyRequestTokenRun(payload, e, json, t, old(rt.storage));
      rt.effects == old(rt.effects) + run.effects && rt.storage == run.storage && ending == run.ending
  {
    var call := RequestTokenRequestCall(payload, e, json);
    if call.Crashed? {
      return Crashed(call.error);
    }
    var apiResult := LegacyCallApi(rt, call.value, t, LegacyTokenOptions(RequestTokenType));
    ending := LegacyFinishRequestToken(rt, apiResult);
    AppendAssociates(old(rt.effects), LegacyCallTrace(call.value, t, LegacyTokenOptions(RequestTokenType)).effects,
                     LegacyAfterRequestToken(apiResult, old(rt.storage)).effects);
  }

  /** The first half of the older verify saga: select, destructure, sign. */
  method LegacyAccessTokenRequestCall(pin: Val, credentials: Val, requestToken: Val, e: Entropy, json: Val -> string)
    returns (call: Ending<ApiCall>)
    requires EnoughPicks(e)
    ensures call == LegacyAccessTokenCall(pin, credentials, requestToken, e, json)
  {
    if Nullish(credentials) || Nullish(requestToken) {
      return Crashed(TypeError);
    }
    var token := Obj(map["key" := OptProp(requestToken, "oauth_token"), "secret" := OptProp(requestToken, "oauth_token_secret")]);
    var oauth := SagaOauth(OptProp(credentials, "smugmugApiKey"), OptProp(credentials, "smugmugApiSecret"));
    var headers := SignHandshake(oauth, AccessTokenRequest(pin), token, Obj(map["oauth_verifier" := pin]), e, json);
    if headers.Crashed? {
      return Crashed(headers.error);
    }
    call := Finished(GetRequest(Str(SmugmugAccessTokenUrl), headers.value));
  }

  /** `smugmugVerifyPinSaga({ payload })` of the older layer. */
  method LegacyVerifyPin(rt: Runtime, pin: Val, credentials: Val, requestToken: Val, e: Entropy, json: Val -> string,
                         t: Transport) returns (ending: Ending<()>)
    requires EnoughPicks(e)
    modifies rt
    ensures var run := LegacyVerifyPinRun(pin, credentials, requestToken, e, json, t, old(rt.storage), rt.failing);
      rt.effects == old(rt.effects) + run.effects && rt.storage == run.storage && ending == run.ending
  {
    var call := LegacyAccessTokenRequestCall(pin, credentials, requestToken, e, json);
    if call.Crashed? {
      return Crashed(call.error);
    }
    var apiResult := LegacyCallApi(rt, call.value, t, LegacyTokenOptions(AccessTokenType));
    FinishAccessToken(rt, apiResult);
    AppendAssociates(old(rt.effects), LegacyCallTrace(call.value, t, LegacyTokenOptions(AccessTokenType)).effects,
                     AfterAccessToken(apiResult, old(rt.storage), rt.failing).effects);
    ending := Finished(());
  }

  // ---------------------------------------------------------------------
  // What the older handshake steps do

  /** A token answer that parses gives the step's action with the parsed
      fields, captured with response meta. */
  lemma LegacyTokenCallSucceeds(c: ApiCall, actionType: string, body: string)
    requires ParseQuery(body).Some?
    ensures var parsed := Obj(ParseQuery(body).value);
      LegacyCallTrace(c, Responded(Str(body)), LegacyTokenOptions(actionType)) ==
        LegacyCall([Send(Obj(SendOptions(c))), Dispatch(DataAction(actionType, parsed, DataResponseMeta))],
                   CallResult(true, Some((parsed, DataResponseMeta))))
  {
    var o := LegacyTokenOptions(actionType);
    var parsed := Obj(ParseQuery(body).value);
    assert o.successPayloadTransform.value(Str(body)) == Some(parsed);
    assert MakeDataResponseMeta(Undef) == DataResponseMeta;
    assert LegacyAfterSuccess(Str(body), o) ==
      LegacyCall([Dispatch(DataAction(actionType, parsed, DataResponseMeta))], CallResult(true, Some((parsed, DataResponseMeta))));
  }

  /** After a successful request-token call that captured a token: only the
      authorization URL for that token. */
  lemma LegacyAfterRequestTokenProceeds(parsed: map<string, Val>, storage: map<string, Val>)
    requires "oauth_token" in parsed
    ensures LegacyAfterRequestToken(CallResult(true, Some((Obj(parsed), DataResponseMeta))), storage) ==
      Run([Dispatch(DataAction(AuthorizationUrlType, Str(AuthorizationUrl(parsed["oauth_token"])), DataResponseMeta))],
          storage, Finished(()))
  {
    var res := CallResult(true, Some((Obj(parsed), DataResponseMeta)));
    ResponseMetaProceeds(Obj(parsed));
    assert AuthorizationUrlAction(res) ==
      Finished(DataAction(AuthorizationUrlType, Str(AuthorizationUrl(parsed["oauth_token"])), DataResponseMeta));
  }

  /** What follows the older request-token call never touches storage. */
  lemma LegacyAfterRequestTokenQuiet(res: CallResult, storage: map<string, Val>)
    ensures var run := LegacyAfterRequestToken(res, storage);
      run.storage == storage && forall i :: 0 <= i < |run.effects| ==> run.effects[i].Dispatch?
  {
    if Proceeds(res) {
      var a := AuthorizationUrlAction(res);
      if a.Finished? {
        assert LegacyAfterRequestToken(res, storage) == Run([Dispatch(a.value)], storage, Finished(()));
      }
    }
  }

  /** The older `callApi` never touches storage. */
  lemma LegacyCallNoStorage(c: ApiCall, t: Transport, o: LegacyOptions)
    ensures var tr := LegacyCallTrace(c, t, o);
      forall i :: 0 <= i < |tr.effects| ==> tr.effects[i].Send? || tr.effects[i].Dispatch?
  {
    var tr := LegacyCallTrace(c, t, o);
    LegacyCallShape(c, t, o);
    forall i | 0 <= i < |tr.effects| ensures tr.effects[i].Send? || tr.effects[i].Dispatch? {
      if i == 0 { assert tr.effects[0].Send?; } else { assert tr.effects[1].Dispatch?; }
    }
  }

  /** On request-token success the older step dispatches the authorization
      URL for the returned token right after the token action, and writes
      nothing. */
  lemma LegacyRequestTokenSucceeds(c: ApiCall, body: string, storage: map<string, Val>)
    requires ParseQuery(body).Some? && "oauth_token" in ParseQuery(body).value
    ensures var parsed := ParseQuery(body).value;
      LegacyRequestTokenExchange(c, Responded(Str(body)), storage) ==
        Run([Send(Obj(SendOptions(c))), Dispatch(DataAction(RequestTokenType, Obj(parsed), DataResponseMeta)),
             Dispatch(DataAction(AuthorizationUrlType, Str(AuthorizationUrl(parsed["oauth_token"])), DataResponseMeta))],
            storage, Finished(()))
  {
    var parsed := ParseQuery(body).value;
    var sent := Send(Obj(SendOptions(c)));
    var token := Dispatch(DataAction(RequestTokenType, Obj(parsed), DataResponseMeta));
    var url := Dispatch(DataAction(AuthorizationUrlType, Str(AuthorizationUrl(parsed["oauth_token"])), DataResponseMeta));
    var res := CallResult(true, Some((Obj(parsed), DataResponseMeta)));
    LegacyTokenCallSucceeds(c, RequestTokenType, body);
    LegacyRequestTokenExchangeIs(c, Responded(Str(body)), storage, [sent, token], res);
    LegacyAfterRequestTokenProceeds(parsed, storage);
    var ex := LegacyRequestTokenExchange(c, Responded(Str(body)), storage);
    PairThenOne(sent, token, url);
    assert ex.storage == storage && ex.ending == Finished(());
  }

  /** The older request-token exchange is its call's effects followed by
      what the call's result leads to. */
  lemma LegacyRequestTokenExchangeIs(c: ApiCall, t: Transport, storage: map<string, Val>,
                                     effects: seq<Effect>, res: CallResult)
    requires LegacyCallTrace(c, t, LegacyTokenOptions(RequestTokenType)) == LegacyCall(effects, res)
    ensures LegacyRequestTokenExchange(c, t, storage) ==
      Run(effects + LegacyAfterRequestToken(res, storage).effects, storage, LegacyAfterRequestToken(res, storage).ending)
  {
    LegacyAfterRequestTokenQuiet(res, storage);
  }

  /** Whatever the answer, the older request-token exchange leaves storage
      alone and yields no storage effect. */
  lemma LegacyRequestTokenNeverWrites(c: ApiCall, t: Transport, storage: map<string, Val>)
    ensures var run := LegacyRequestTokenExchange(c, t, storage);
      run.storage == storage && forall i :: 0 <= i < |run.effects| ==> !run.effects[i].StorageWrite?
  {
    var tr := LegacyCallTrace(c, t, LegacyTokenOptions(RequestTokenType));
    var after := LegacyAfterRequestToken(tr.result, storage);
    LegacyCallNoStorage(c, t, LegacyTokenOptions(RequestTokenType));
    LegacyAfterRequestTokenQuiet(tr.result, storage);
    var run := LegacyRequestTokenExchange(c, t, storage);
    forall i | 0 <= i < |run.effects| ensures !run.effects[i].StorageWrite? {
      if i < |tr.effects| {
        assert run.effects[i] == tr.effects[i];
      } else {
        assert run.effects[i] == after.effects[i - |tr.effects|];
      }
    }
  }

  /** On verify success the older step saves the returned `oauth_token` as
      `authToken` and then `oauth_token_secret` as `authTokenSecret`. */
  lemma LegacyAccessTokenSucceeds(c: ApiCall, body: string, storage: map<string, Val>, failing: set<string>)
    requires ParseQuery(body).Some?
    ensures var parsed := Obj(ParseQuery(body).value);
      var w := WritePair(storage, failing, ("authToken", OptProp(parsed, "oauth_token")),
                                           ("authTokenSecret", OptProp(parsed, "oauth_token_secret")));
      LegacyAccessTokenExchange(c, Responded(Str(body)), storage, failing) ==
        Run([Send(Obj(SendOptions(c))), Dispatch(DataAction(AccessTokenType, parsed, DataResponseMeta))] + w.effects,
            w.storage, Finished(()))
  {
    LegacyTokenCallSucceeds(c, AccessTokenType, body);
    ResponseMetaProceeds(Obj(ParseQuery(body).value));
  }

  /** When the older verify request rejects, the error action is the only
      thing after the request, and nothing is written. */
  lemma LegacyAccessTokenRejected(c: ApiCall, err: Val, storage: map<string, Val>, failing: set<string>)
    ensures var run := LegacyAccessTokenExchange(c, Failed(err), storage, failing);
      run.storage == storage && run.ending == Finished(())
      && |run.effects| == 2 && run.effects[0] == Send(Obj(SendOptions(c)))
      && run.effects[1].Dispatch? && ErrorReported(run.effects[1].action, DataCreator(AccessTokenType), ErrorMessage(err))
  {
    var o := LegacyTokenOptions(AccessTokenType);
    var creator := DataCreator(AccessTokenType);
    var effects := [Send(Obj(SendOptions(c))), Dispatch(creator.Create(ErrorMessage(err), LegacyErrorMeta()))];
    LegacyRejectedTrace(c, err, o);
    ErrorReportedBy(creator, ErrorMessage(err));
    AfterAccessTokenStops(CallResult(false, None), storage, failing);
    assert effects + [] == effects;
  }

  /** A rejected call with an error action: the request, then that action. */
  lemma LegacyRejectedTrace(c: ApiCall, err: Val, o: LegacyOptions)
    requires o.errorAction.Some?
    ensures LegacyCallTrace(c, Failed(err), o) ==
      LegacyCall([Send(Obj(SendOptions(c))), Dispatch(o.errorAction.value.Create(ErrorMessage(err), LegacyErrorMeta()))],
                 CallResult(false, None))
  {
  }

  // ---------------------------------------------------------------------
  // smugmugTestRequestSaga

  /** The URL of the first authenticated request. */
  const TestRequestUrl: string := SmugmugBaseUrl + "!authuser"

  /** The test request carries no query, so signing it never throws. */
  lemma TestRequestUrlPlain()
    ensures UrlToObject(TestRequestUrl) == Some(map[])
  {
    assert '?' !in TestRequestUrl by {
      forall i | 0 <= i < |TestRequestUrl| ensures TestRequestUrl[i] != '?' { }
    }
    UrlWithoutQuery(TestRequestUrl);
  }

  /** The test request's call: a GET of `SMUGMUG_BASE_URL + '!authuser'`
      whose only header is `Authorization`, signed with the payload's
      consumer key and secret and its access-token pair (the `Accept` extra
      is passed to `toHeader` instead of being sent as a header);
      destructuring a null or undefined payload throws. */
  function TestRequestCall(payload: Val, e: Entropy, json: Val -> string): Ending<ApiCall>
    requires EnoughPicks(e)
  {
    if Nullish(payload) then Crashed(TypeError)
    else
      var oauth := SagaOauth(OptProp(payload, "smugmugApiKey"), OptProp(payload, "smugmugApiSecret"));
      match oauth.Authorized(AuthGet(TestRequestUrl, None), AccessTokenPair(payload), e.picks, e.timestamp, json)
      case Err(f) => Crashed(FailureError(f))
      case Ok(fields) =>
        Finished(GetRequest(Str(TestRequestUrl), AuthorizationHeader(oauth.HeaderValue(Obj(fields), Obj(map["Accept" := AcceptJson])))))
  }

  /** `smugmugTestRequestAction` is not among the exported actions, so both
      creators are missing and `callApi` dispatches nothing. */
  const NoCreators: LegacyOptions := LegacyOptions(None, None, None)

  /** `smugmugTestRequestSaga(action)` */
  function TestRequestRun(payload: Val, e: Entropy, json: Val -> string, t: Transport, storage: map<string, Val>): Run
    requires EnoughPicks(e)
  {
    match TestRequestCall(payload, e, json)
    case Crashed(err) => Run([], storage, Crashed(err))
    case Finished(c) => Run(LegacyCallTrace(c, t, NoCreators).effects, storage, Finished(()))
  }

  /** `smugmugTestRequestSaga({ payload })` */
  method TestRequest(rt: Runtime, payload: Val, e: Entropy, json: Val -> string, t: Transport) returns (ending: Ending<()>)
    requires EnoughPicks(e)
    modifies rt
    ensures var run := TestRequestRun(payload, e, json, t, old(rt.storage));
      rt.effects == old(rt.effects) + run.effects && rt.storage == run.storage && ending == run.ending
  {
    var call := TestRequestSign(payload, e, json);
    TestRequestRunAfter(payload, e, json, t, old(rt.storage), call);
    if call.Crashed? {
      return Crashed(call.error);
    }
    ending := TestRequestSend(rt, call.value, t);
  }

  /** The test request saga is its signing step followed by the request. */
  lemma TestRequestRunAfter(payload: Val, e: Entropy, json: Val -> string, t: Transport, storage: map<string, Val>,
                            call: Ending<ApiCall>)
    requires EnoughPicks(e) && call == TestRequestCall(payload, e, json)
    ensures TestRequestRun(payload, e, json, t, storage) ==
      if call.Crashed? then Run([], storage, Crashed(call.error))
      else Run(LegacyCallTrace(call.value, t, NoCreators).effects, storage, Finished(()))
  {
  }

  /** The second half of the test request saga: the request, and no action
      whatever the answer. */
  method TestRequestSend(rt: Runtime, c: ApiCall, t: Transport) returns (ending: Ending<()>)
    modifies rt
    ensures rt.effects == old(rt.effects) + LegacyCallTrace(c, t, NoCreators).effects
    ensures rt.storage == old(rt.storage) && ending == Finished(())
  {
    var apiResult := LegacyCallApi(rt, c, t, NoCreators);
    ending := Finished(());
  }

  /** The first half of the test request saga: destructure and sign. */
  method TestRequestSign(payload: Val, e: Entropy, json: Val -> string) returns (call: Ending<ApiCall>)
    requires EnoughPicks(e)
    ensures call == TestRequestCall(payload, e, json)
  {
    if Nullish(payload) {
      return Crashed(TypeError);
    }
    var token := Obj(map["key" := OptProp(payload, "access_token"), "secret" := OptProp(payload, "access_token_secret")]);
    var oauth := SagaOauth(OptProp(payload, "smugmugApiKey"), OptProp(payload, "smugmugApiSecret"));
    var r := new HttpRequest(Some("GET"), TestRequestUrl, Undef, false);
    assert r.Value() == AuthGet(TestRequestUrl, None);
    var authorized := oauth.Authorize(r, token, e.picks, e.timestamp, json);
    assert authorized == oauth.Authorized(AuthGet(TestRequestUrl, None), token, e.picks, e.timestamp, json);
    if authorized.Err? {
      return Crashed(FailureError(authorized.error));
    }
    var authorization := oauth.ToHeader(Obj(authorized.value), Obj(map["Accept" := AcceptJson]));
    call := Finished(GetRequest(Str(TestRequestUrl), AuthorizationHeader(authorization)));
  }

  /** Once the payload is destructured the test request always goes out,
      and it is the only effect, whatever the answer. */
  lemma TestRequestOnlySends(payload: Val, e: Entropy, json: Val -> string, t: Transport, storage: map<string, Val>)
    requires EnoughPicks(e) && !Nullish(payload)
    ensures var call := TestRequestCall(payload, e, json);
      call.Finished? && TestRequestRun(payload, e, json, t, storage) == Run([Send(Obj(SendOptions(call.value)))], storage, Finished(()))
  {
    TestRequestUrlPlain();
    var oauth := SagaOauth(OptProp(payload, "smugmugApiKey"), OptProp(payload, "smugmugApiSecret"));
    oauth.AuthorizedSigned(AuthGet(TestRequestUrl, None), AccessTokenPair(payload), e.picks, e.timestamp, json);
    var call := TestRequestCall(payload, e, json);
    assert call.Finished?;
    NoCreatorsOnlySend(call.value, t);
  }

  /** With no creators the older `callApi` only sends. */
  lemma NoCreatorsOnlySend(c: ApiCall, t: Transport)
    ensures LegacyCallTrace(c, t, NoCreators).effects == [Send(Obj(SendOptions(c)))]
  {
  }

  /** The older test request is exactly the request the newer
      `prepareAuthRequest('!authuser')` prepares, given the payload's
      consumer key and secret as the selected credentials and the payload
      as the access token, for any `API_V2` that does not occur in
      `!authuser`: the program's undefined one as well as `/api/v2`. */
  lemma TestRequestMatchesPrepared(payload: Val, apiV2: string, e: Entropy, json: Val -> string)
    requires EnoughPicks(e) && !Nullish(payload) && !Contains("!authuser", apiV2)
    ensures var credentials := Obj(map["key" := OptProp(payload, "smugmugApiKey"), "secret" := OptProp(payload, "smugmugApiSecret")]);
      var prepared := PrepareAuthRequest(credentials, payload, "!authuser", None, apiV2, e, json);
      prepared.Finished?
      && TestRequestCall(payload, e, json) == Finished(GetRequest(Str(prepared.value.url), prepared.value.headers))
  {
    var key, secret := OptProp(payload, "smugmugApiKey"), OptProp(payload, "smugmugApiSecret");
    var credentials := Obj(map["key" := key, "secret" := secret]);
    assert Prop(credentials, "key") == Some(key) && Prop(credentials, "secret") == Some(secret);
    assert CredentialsOauth(credentials) == SagaOauth(key, secret);
    assert ResolveUrl("!authuser", apiV2) == TestRequestUrl;
    TestRequestUrlPlain();
  }

  /** The test request's fields: `oauth_token` is the payload's access token,
      signed exactly when it is truthy; the consumer key is the payload's;
      the (PLAINTEXT) signature is the signing key over the access token's
      secret. */
  lemma TestRequestSigned(payload: Val, e: Entropy, json: Val -> string)
    requires EnoughPicks(e) && !Nullish(payload)
    ensures var oauth := SagaOauth(OptProp(payload, "smugmugApiKey"), OptProp(payload, "smugmugApiSecret"));
      var signed := oauth.Authorized(AuthGet(TestRequestUrl, None), AccessTokenPair(payload), e.picks, e.timestamp, json);
      signed.Ok?
      && ("oauth_token" in signed.value <==> Truthy(OptProp(payload, "access_token")))
      && ("oauth_token" in signed.value ==> signed.value["oauth_token"] == OptProp(payload, "access_token"))
      && "oauth_consumer_key" in signed.value && signed.value["oauth_consumer_key"] == OptProp(payload, "smugmugApiKey")
      && "oauth_signature" in signed.value && signed.value["oauth_signature"] == Str(oauth.SigningKey(OptProp(payload, "access_token_secret")))
  {
    var key, secret := OptProp(payload, "smugmugApiKey"), OptProp(payload, "smugmugApiSecret");
    var oauth := SagaOauth(key, secret);
    var token := AccessTokenPair(payload);
    var request := AuthGet(TestRequestUrl, None);
    TestRequestUrlPlain();
    assert request.url == TestRequestUrl;
    PlaintextSigned(oauth, request, token, e, json);
    SagaConsumerKey(key, secret);
  }

  // ---------------------------------------------------------------------
  // smugmugTestApiSaga

  /** `https://api.smugmug.com/api/v2/user/${SMUGMUG_NICKNAME}?APIKey=${SMUGMUG_API_KEY}`,
      the two build-time constants being parameters. */
  function TestApiUrl(nickname: Val, apiKey: Val): string {
    "https://api.smugmug.com/api/v2/user/" + ToJsString(nickname) + "?APIKey=" + ToJsString(apiKey)
  }

  /** Its options: `smugmugTestDataAction` for success and for error. */
  const TestDataOptions: LegacyOptions := LegacyOptions(Some(DataCreator(TestDataType)), None, Some(DataCreator(TestDataType)))

  /** `smugmugTestApiSaga()`: an unsigned GET whose headers are only
      `Accept`. */
  method TestApi(rt: Runtime, nickname: Val, apiKey: Val, t: Transport)
    modifies rt
    ensures rt.effects == old(rt.effects) + LegacyCallTrace(GetRequest(Str(TestApiUrl(nickname, apiKey)), Undef), t, TestDataOptions).effects
    ensures rt.storage == old(rt.storage)
  {
    var _ := LegacyCallApi(rt, GetRequest(Str(TestApiUrl(nickname, apiKey)), Undef), t, TestDataOptions);
  }

  /** The unauthenticated test reports its outcome in one test-data action:
      the response data on success, the error's message with error meta on
      failure. */
  lemma TestApiReports(nickname: Val, apiKey: Val, t: Transport)
    ensures var tr := LegacyCallTrace(GetRequest(Str(TestApiUrl(nickname, apiKey)), Undef), t, TestDataOptions);
      |tr.effects| == 2 && tr.effects[1].Dispatch?
      && (t.Responded? ==> SuccessReported(tr.effects[1].action, DataCreator(TestDataType), t.data))
      && (t.Failed? ==> ErrorReported(tr.effects[1].action, DataCreator(TestDataType), ErrorMessage(t.err)))
  {
    var c := GetRequest(Str(TestApiUrl(nickname, apiKey)), Undef);
    if t.Responded? {
      LegacyCallSucceeds(c, t.data, TestDataOptions);
    } else {
      LegacyCallRejected(c, t.err, TestDataOptions);
    }
  }

  // ---------------------------------------------------------------------
  // smugmugLoadFromLocalStorageSaga of the older layer

  /** The older load step reads only the access token and its secret. */
  const LegacyStoredKeys: seq<string> := ["authToken", "authTokenSecret"]

  /** `smugmugLoadFromLocalStorageSaga()` of the older layer. */
  method LegacyLoadFromLocalStorage(rt: Runtime) returns (ending: Ending<()>)
    modifies rt
    ensures var run := LoadRun(LegacyStoredKeys, LoadFromLocalStorageType, old(rt.storage), rt.failing);
      rt.effects == old(rt.effects) + run.effects && rt.storage == run.storage && ending == run.ending
  {
    var authToken := rt.Read("authToken");
    if authToken.None? { return Finished(()); }
    var authTokenSecret := rt.Read("authTokenSecret");
    if authTokenSecret.None? { return Finished(()); }
    var payload := map["authToken" := authToken.value, "authTokenSecret" := authTokenSecret.value];
    rt.Put(DataAction(LoadFromLocalStorageType, Obj(payload), MakeDataResponseMeta(Undef)));
    return Finished(());
  }

  /** The selectors of the consumer credentials and the access token read
      `state.api.smugmugConsumerCredentials` and `state.api.smugmugAccessToken`,
      but the combined api reducer builds neither key. Every api state it
      produces therefore gives both selectors undefined, and each saga step
      that destructures them throws a TypeError before anything is sent:
      `prepareAuthRequest`, and the verify step of both layers. */
  lemma {:induction false} WiredSelectionsThrow(credentialsKey: string, state: Val, action: Action, pin: Val,
                                                url: string, verb: Option<string>, apiV2: string,
                                                e: Entropy, json: Val -> string)
    requires EnoughPicks(e)
    ensures ApiReducers.Root(credentialsKey, state, action).Some? ==>
      var api := Obj(ApiReducers.Root(credentialsKey, state, action).value);
      var credentials := OptProp(api, "smugmugConsumerCredentials");
      var accessToken := OptProp(api, "smugmugAccessToken");
      var requestToken := OptProp(api, "smugmugRequestToken");
      credentials.Undef? && accessToken.Undef?
      && PrepareAuthRequest(credentials, accessToken, url, verb, apiV2, e, json) == Crashed(TypeError)
      && AccessTokenCall(pin, credentials, requestToken, e, json) == Crashed(TypeError)
      && LegacyAccessTokenCall(pin, credentials, requestToken, e, json) == Crashed(TypeError)
  {
    if ApiReducers.Root(credentialsKey, state, action).Some? {
      var api := Obj(ApiReducers.Root(credentialsKey, state, action).value);
      ApiReducers.RootKeys(credentialsKey, state, action);
      UndefinedSelectionsThrow(pin, OptProp(api, "smugmugRequestToken"), url, verb, apiV2, e, json);
    }
  }

  /** With undefined consumer credentials (and, for signed requests, an
      undefined access token), no signing step gets past its destructuring. */
  lemma UndefinedSelectionsThrow(pin: Val, requestToken: Val, url: string, verb: Option<string>, apiV2: string,
                                 e: Entropy, json: Val -> string)
    requires EnoughPicks(e)
    ensures PrepareAuthRequest(Undef, Undef, url, verb, apiV2, e, json) == Crashed(TypeError)
    ensures AccessTokenCall(pin, Undef, requestToken, e, json) == Crashed(TypeError)
    ensures LegacyAccessTokenCall(pin, Undef, requestToken, e, json) == Crashed(TypeError)
  {
  }
}
