/** The request helpers of the newer saga layer: the axios request
    `makeSmugmugRequest` sends and how its promise settles, the verb
    wrappers, `callApi` (which turns the outcome of one request into the
    actions and snackbars it dispatches) and `prepareAuthRequest` (the URL
    and signed headers of an authenticated GET). */
module ApiUtils {
  import opened JsValues
  import opened ActionMeta
  import opened QueryString
  import opened OauthParams
  import opened OauthSigner
  import opened SagaRuntime

  const SmugmugOauthOrigin: string := "https://secure.smugmug.com"
  const SmugmugRequestTokenUrl: string := SmugmugOauthOrigin + "/services/oauth/1.0a/getRequestToken"
  const SmugmugAccessTokenUrl: string := SmugmugOauthOrigin + "/services/oauth/1.0a/getAccessToken"
  const SmugmugAuthorizeUrl: string := SmugmugOauthOrigin + "/services/oauth/1.0a/authorize"
  const SmugmugApiOrigin: string := "https://api.smugmug.com"
  const SmugmugBaseUrl: string := SmugmugApiOrigin + "/api/v2"

  const AcceptJson: Val := Str("application/json")

  // ---------------------------------------------------------------------
  // makeSmugmugRequest and the verb wrappers

  /** The request options `{ headers: { ...headers, Accept }, url, ...options }`. */
  function RequestOptions(url: Val, options: Val, headers: Val): (r: map<string, Val>)
    ensures r.Keys == {"headers", "url"} + Spread(options).Keys
    ensures forall k :: k in Spread(options) ==> r[k] == Spread(options)[k]
    ensures "url" !in Spread(options) ==> r["url"] == url
    ensures "headers" !in Spread(options) ==>
      r["headers"].Obj?
      && r["headers"].props.Keys == Spread(headers).Keys + {"Accept"}
      && r["headers"].props["Accept"] == AcceptJson
      && forall k :: k in Spread(headers) && k != "Accept" ==> r["headers"].props[k] == Spread(headers)[k]
  {
    map["headers" := Obj(Spread(headers)["Accept" := AcceptJson]), "url" := url] + Spread(options)
  }

  /** A call of one of the wrappers `getRequest(url, headers)`,
      `postRequest(url, data, headers)`, `putRequest` and `deleteRequest`. */
  datatype ApiCall =
    | GetRequest(url: Val, headers: Val)
    | PostRequest(url: Val, data: Val, headers: Val)
    | PutRequest(url: Val, data: Val, headers: Val)
    | DeleteRequest(url: Val, data: Val, headers: Val)
  {
    function Method(): string {
      match this
      case GetRequest(_, _) => "GET"
      case PostRequest(_, _, _) => "POST"
      case PutRequest(_, _, _) => "PUT"
      case DeleteRequest(_, _, _) => "DELETE"
    }

    /** The `options` the wrapper passes: the method and, for the verbs with
        a body, `data` (which defaults to `{}`). */
    function WrapperOptions(): map<string, Val> {
      if GetRequest? then map["method" := Str(Method())]
      else map["method" := Str(Method()), "data" := if data.Undef? then EmptyObject else data]
    }
  }

  /** What axios is handed for a wrapper call. */
  function SendOptions(c: ApiCall): (r: map<string, Val>)
    ensures r.Keys == {"headers", "url", "method"} + (if c.GetRequest? then {} else {"data"})
    ensures r["method"] == Str(c.Method()) && r["url"] == c.url
    ensures !c.GetRequest? ==> r["data"] == (if c.data.Undef? then EmptyObject else c.data)
    ensures r["headers"].Obj? && r["headers"].props.Keys == Spread(c.headers).Keys + {"Accept"}
    ensures r["headers"].props["Accept"] == AcceptJson
    ensures forall k :: k in Spread(c.headers) && k != "Accept" ==> r["headers"].props[k] == Spread(c.headers)[k]
  {
    assert "headers" !in c.WrapperOptions() && "url" !in c.WrapperOptions();
    RequestOptions(c.url, Obj(c.WrapperOptions()), c.headers)
  }

  /** What the transport does with a request: answer with a response whose
      `data` is given, or reject with an error. */
  datatype Transport = Responded(data: Val) | Failed(err: Val)

  /** `err.response?.data` */
  function ErrorData(err: Val): Val {
    OptProp(OptProp(err, "response"), "data")
  }

  /** The promise `makeSmugmugRequest` returns, once settled: the response
      data; for a failure that carries response data, `{ isError: true,
      ...data }`; otherwise the failure is thrown again. */
  function Settle(t: Transport): (r: Settled)
    ensures t.Responded? ==> r == Returned(t.data)
    ensures t.Failed? ==> (r.Returned? <==> !Nullish(t.err) && Truthy(ErrorData(t.err)))
    ensures t.Failed? && Nullish(t.err) ==> r == Threw(TypeError)
    ensures t.Failed? && !Nullish(t.err) && !Truthy(ErrorData(t.err)) ==> r == Threw(t.err)
  {
    match t
    case Responded(data) => Returned(data)
    case Failed(err) =>
      if Nullish(err) then Threw(TypeError)
      else
        var data := ErrorData(err);
        if Truthy(data) then Returned(Obj(map["isError" := Bool(true)] + Spread(data)))
        else Threw(err)
  }

  /** A failure that carries response data settles to an object holding
      every field of that data, flagged `isError` unless the data sets the
      flag itself. */
  lemma SettleErrorData(err: Val)
    requires !Nullish(err) && Truthy(ErrorData(err))
    ensures var r := Settle(Failed(err));
      r.Returned? && r.value.Obj?
      && r.value.props.Keys == Spread(ErrorData(err)).Keys + {"isError"}
      && (forall k :: k in Spread(ErrorData(err)) ==> r.value.props[k] == Spread(ErrorData(err))[k])
      && ("isError" !in Spread(ErrorData(err)) ==> r.value.props["isError"] == Bool(true))
  {
  }

  // ---------------------------------------------------------------------
  // callApi

  /** An action creator handed to `callApi`: one from a data table (payload
      and meta) or an identity creator (payload only). */
  datatype Creator = DataCreator(actionType: string) | IdentityCreator(actionType: string)
  {
    function Create(payload: Val, meta: Val): (a: Action)
      ensures "type" in a && a["type"] == Str(actionType)
      ensures Payload(a) == payload
    {
      if DataCreator? then DataAction(actionType, payload, meta) else IdentityAction(actionType, payload)
    }
  }

  /** The `options` of `callApi`. An absent creator or transform is None; a
      transform that throws answers None. */
  datatype CallOptions = CallOptions(
    responseAction: Option<Creator>,
    successAction: Option<Creator>,
    successPayloadTransform: Option<Val -> Option<Val>>,
    errorAction: Option<Creator>,
    successMessage: Val,
    errorMessage: Val,
    controlledErrorTransform: Option<Val -> Val>)
  {
    /** `successAction || responseAction` */
    function ResolvedSuccessAction(): Option<Creator> {
      if successAction.Some? then successAction else responseAction
    }

    /** `errorAction || responseAction` */
    function ResolvedErrorAction(): Option<Creator> {
      if errorAction.Some? then errorAction else responseAction
    }

    /** The success payload: the transformed response, or the response. */
    function SuccessPayload(response: Val): Option<Val> {
      if successPayloadTransform.Some? then successPayloadTransform.value(response) else Some(response)
    }

    /** The message of an `isError` response: the transform's result when
        it is truthy, else the default. */
    function ControlledErrorMessage(response: Val): (r: Val)
      ensures Truthy(r)
      ensures controlledErrorTransform.Some? && Truthy(controlledErrorTransform.value(response)) ==>
        r == controlledErrorTransform.value(response)
      ensures !(controlledErrorTransform.Some? && Truthy(controlledErrorTransform.value(response))) ==>
        r == Str(DefaultApiError)
    {
      var m := if controlledErrorTransform.Some? then controlledErrorTransform.value(response) else Undef;
      if Truthy(m) then m else Str(DefaultApiError)
    }
  }

  const DefaultApiError: string := "An error occurred calling the API."

  /** `err?.body?.message ?? err?.message ?? err` */
  function ErrorMessage(err: Val): (r: Val)
    ensures !Nullish(OptProp(OptProp(err, "body"), "message")) ==> r == OptProp(OptProp(err, "body"), "message")
    ensures Nullish(OptProp(OptProp(err, "body"), "message")) && !Nullish(OptProp(err, "message")) ==>
      r == OptProp(err, "message")
    ensures Nullish(OptProp(OptProp(err, "body"), "message")) && Nullish(OptProp(err, "message")) ==> r == err
  {
    Coalesce(Coalesce(OptProp(OptProp(err, "body"), "message"), OptProp(err, "message")), err)
  }

  function ErrorSnackbar(text: Val): Val {
    Obj(map["text" := text, "error" := Bool(true)])
  }

  function InfoSnackbar(text: Val): Val {
    Obj(map["text" := text])
  }

  /** What `callApi` returns, and the arguments it passed to the success
      creator (what a capturing creator records). */
  datatype CallResult = CallResult(ok: bool, captured: Option<(Val, Val)>)

  /** The effects a saga step yields and how it ends. */
  datatype Trace<T> = Trace(effects: seq<Effect>, ending: Ending<T>)

  /** The `catch` of `callApi`: with an error creator, the error action
      carrying the extracted message and an error snackbar; false. */
  function AfterThrow(err: Val, o: CallOptions): Trace<CallResult> {
    match o.ResolvedErrorAction()
    case None => Trace([], Finished(CallResult(false, None)))
    case Some(creator) =>
      var message := ErrorMessage(err);
      var text := OrElse(OrElse(o.errorMessage, message), Str("Oops"));
      Trace([Dispatch(creator.Create(message, MakeErrorDataResponseMeta(Undef))), Snackbar(ErrorSnackbar(text))],
            Finished(CallResult(false, None)))
  }

  /** The `isError` branch: the error action and an error snackbar with the
      controlled message; false. Calling an absent error creator throws. */
  function AfterErrorResponse(response: Val, o: CallOptions): Trace<CallResult> {
    var message := o.ControlledErrorMessage(response);
    match o.ResolvedErrorAction()
    case None => Trace([], Crashed(TypeError))
    case Some(creator) =>
      Trace([Dispatch(creator.Create(message, MakeErrorDataResponseMeta(Undef))), Snackbar(ErrorSnackbar(message))],
            Finished(CallResult(false, None)))
  }

  /** The success branch: the success action and, when set, the success
      snackbar; true, even when the payload transform throws. */
  function AfterSuccess(response: Val, o: CallOptions): Trace<CallResult> {
    match o.ResolvedSuccessAction()
    case None => Trace([], Finished(CallResult(true, None)))
    case Some(creator) =>
      match o.SuccessPayload(response)
      case None => Trace([], Finished(CallResult(true, None)))
      case Some(data) =>
        var meta := MakeDataResponseMeta(Undef);
        var note := if Truthy(o.successMessage) then [Snackbar(InfoSnackbar(o.successMessage))] else [];
        Trace([Dispatch(creator.Create(data, meta))] + note, Finished(CallResult(true, Some((data, meta)))))
  }

  /** Everything after the request settles; reading `isError` of a null or
      undefined response throws. */
  function AfterSettle(s: Settled, o: CallOptions): Trace<CallResult> {
    match s
    case Threw(err) => AfterThrow(err, o)
    case Returned(response) =>
      match Prop(response, "isError")
      case None => Trace([], Crashed(TypeError))
      case Some(isError) => if Truthy(isError) then AfterErrorResponse(response, o) else AfterSuccess(response, o)
  }

  /** `callApi(fn, args, options)` for the request c whose transport outcome is t. */
  function CallApiTrace(c: ApiCall, t: Transport, o: CallOptions): Trace<CallResult> {
    var rest := AfterSettle(Settle(t), o);
    Trace([Send(Obj(SendOptions(c)))] + rest.effects, rest.ending)
  }

  /** `callApi`: sends the request, then on a thrown error dispatches the
      error action and an error snackbar, on an `isError` response does the
      same with the controlled message, and otherwise dispatches the success
      action (an error while doing so is swallowed) and the success
      snackbar. */
  method CallApi(rt: Runtime, c: ApiCall, t: Transport, o: CallOptions) returns (ending: Ending<CallResult>)
    modifies rt
    ensures rt.effects == old(rt.effects) + CallApiTrace(c, t, o).effects
    ensures rt.storage == old(rt.storage)
    ensures ending == CallApiTrace(c, t, o).ending
  {
    ghost var before := rt.effects;
    rt.SendRequest(Obj(SendOptions(c)));
    var apiResponse := Settle(t);
    ending := HandleSettled(rt, apiResponse, o);
    AppendAssociates(before, [Send(Obj(SendOptions(c)))], AfterSettle(apiResponse, o).effects);
  }

  lemma AppendAssociates<T>(a: seq<T>, b: seq<T>, c: seq<T>)
    ensures (a + b) + c == a + (b + c)
  {
  }

  /** Two effects followed by a third, as one sequence. */
  lemma PairThenOne<T>(a: T, b: T, c: T)
    ensures [a, b] + [c] == [a, b, c]
  {
  }

  /** What `callApi` does once the request has settled. */
  method HandleSettled(rt: Runtime, apiResponse: Settled, o: CallOptions) returns (ending: Ending<CallResult>)
    modifies rt
    ensures rt.effects == old(rt.effects) + AfterSettle(apiResponse, o).effects
    ensures rt.storage == old(rt.storage)
    ensures ending == AfterSettle(apiResponse, o).ending
  {
    if apiResponse.Threw? {
      ending := ReportThrow(rt, apiResponse.error, o);
    } else {
      var isError := Prop(apiResponse.value, "isError");
      if isError.None? {
        ending := Crashed(TypeError);
      } else if Truthy(isError.value) {
        ending := ReportErrorResponse(rt, apiResponse.value, o);
      } else {
        ending := DispatchSuccess(rt, apiResponse.value, o);
      }
    }
  }

  method ReportThrow(rt: Runtime, err: Val, o: CallOptions) returns (ending: Ending<CallResult>)
    modifies rt
    ensures rt.effects == old(rt.effects) + AfterThrow(err, o).effects
    ensures rt.storage == old(rt.storage)
    ensures ending == AfterThrow(err, o).ending
  {
    var resolvedErrorAction := o.ResolvedErrorAction();
    if resolvedErrorAction.Some? {
      var message := ErrorMessage(err);
      rt.Put(resolvedErrorAction.value.Create(message, MakeErrorDataResponseMeta(Undef)));
      var resolvedErrorMessage := OrElse(OrElse(o.errorMessage, message), Str("Oops"));
      rt.OpenSnackbar(ErrorSnackbar(resolvedErrorMessage));
    }
    return Finished(CallResult(false, None));
  }

  method ReportErrorResponse(rt: Runtime, apiResponse: Val, o: CallOptions) returns (ending: Ending<CallResult>)
    modifies rt
    ensures rt.effects == old(rt.effects) + AfterErrorResponse(apiResponse, o).effects
    ensures rt.storage == old(rt.storage)
    ensures ending == AfterErrorResponse(apiResponse, o).ending
  {
    var controlledErrorMessage := Undef;
    if o.controlledErrorTransform.Some? {
      controlledErrorMessage := o.controlledErrorTransform.value(apiResponse);
    }
    if !Truthy(controlledErrorMessage) {
      controlledErrorMessage := Str(DefaultApiError);
    }
    var resolvedErrorAction := o.ResolvedErrorAction();
    if resolvedErrorAction.None? {
      return Crashed(TypeError);
    }
    rt.Put(resolvedErrorAction.value.Create(controlledErrorMessage, MakeErrorDataResponseMeta(Undef)));
    rt.OpenSnackbar(ErrorSnackbar(controlledErrorMessage));
    return Finished(CallResult(false, None));
  }

  method DispatchSuccess(rt: Runtime, apiResponse: Val, o: CallOptions) returns (ending: Ending<CallResult>)
    modifies rt
    ensures rt.effects == old(rt.effects) + AfterSuccess(apiResponse, o).effects
    ensures rt.storage == old(rt.storage)
    ensures ending == AfterSuccess(apiResponse, o).ending
  {
    var captured := None;
    var resolvedSuccessAction := o.ResolvedSuccessAction();
    if resolvedSuccessAction.Some? {
      var data := o.SuccessPayload(apiResponse);
      if data.Some? {
        var meta := MakeDataResponseMeta(Undef);
        rt.Put(resolvedSuccessAction.value.Create(data.value, meta));
        captured := Some((data.value, meta));
        if Truthy(o.successMessage) {
          rt.OpenSnackbar(InfoSnackbar(o.successMessage));
        }
      }
    }
    return Finished(CallResult(true, captured));
  }

  /** Every call sends exactly one request, first, and touches no storage;
      at most an action and a snackbar follow. */
  lemma CallApiSendsOnce(c: ApiCall, t: Transport, o: CallOptions)
    ensures var tr := CallApiTrace(c, t, o);
      1 <= |tr.effects| <= 3 && tr.effects[0] == Send(Obj(SendOptions(c)))
      && forall i :: 1 <= i < |tr.effects| ==> tr.effects[i].Dispatch? || tr.effects[i].Snackbar?
  {
    var sent := Send(Obj(SendOptions(c)));
    var rest := AfterSettle(Settle(t), o).effects;
    AfterSettleReports(Settle(t), o);
    assert CallApiTrace(c, t, o).effects == [sent] + rest;
    SendFirst(sent, rest);
  }

  lemma SendFirst(sent: Effect, rest: seq<Effect>)
    requires |rest| <= 2 && forall i :: 0 <= i < |rest| ==> rest[i].Dispatch? || rest[i].Snackbar?
    ensures var all := [sent] + rest;
      1 <= |all| <= 3 && all[0] == sent && forall i :: 1 <= i < |all| ==> all[i].Dispatch? || all[i].Snackbar?
  {
    var all := [sent] + rest;
    forall i | 1 <= i < |all| ensures all[i].Dispatch? || all[i].Snackbar? {
      assert all[i] == rest[i - 1];
    }
  }

  /** After the request, at most an action and a snackbar. */
  lemma AfterSettleReports(s: Settled, o: CallOptions)
    ensures var rest := AfterSettle(s, o);
      |rest.effects| <= 2 && forall i :: 0 <= i < |rest.effects| ==> rest.effects[i].Dispatch? || rest.effects[i].Snackbar?
  {
  }

  /** `callApi` never touches local storage. */
  lemma CallApiWritesNothing(c: ApiCall, t: Transport, o: CallOptions)
    ensures var tr := CallApiTrace(c, t, o);
      forall i :: 0 <= i < |tr.effects| ==> !tr.effects[i].StorageWrite? && !tr.effects[i].StorageRead?
  {
    var tr := CallApiTrace(c, t, o);
    CallApiSendsOnce(c, t, o);
    forall i | 0 <= i < |tr.effects|
      ensures !tr.effects[i].StorageWrite? && !tr.effects[i].StorageRead?
    {
      if i == 0 {
        assert tr.effects[i].Send?;
      } else {
        assert tr.effects[i].Dispatch? || tr.effects[i].Snackbar?;
      }
    }
  }

  /** `callApi` answers true exactly when the response settles, is not
      null or undefined, and is not flagged `isError`; it throws exactly
      when the response is null or undefined, or flagged `isError` with no
      error creator to report it. */
  lemma CallApiOutcome(c: ApiCall, t: Transport, o: CallOptions)
    ensures var tr, s := CallApiTrace(c, t, o), Settle(t);
      (tr.ending.Finished? && tr.ending.value.ok <==>
         s.Returned? && !Nullish(s.value) && !Truthy(OptProp(s.value, "isError")))
      && (tr.ending.Crashed? <==>
         s.Returned? && (Nullish(s.value) || (Truthy(OptProp(s.value, "isError")) && o.ResolvedErrorAction().None?)))
  {
  }

  /** An error action of the creator's type carrying the message; from a
      data table it is a data response whose meta has `error: true`. */
  predicate ErrorReported(a: Action, creator: Creator, message: Val) {
    "type" in a && a["type"] == Str(creator.actionType) && Payload(a) == message
    && (creator.DataCreator? ==>
          IsDataResponseAction(Obj(a), Some(creator.actionType)) == Some(true)
          && OptProp(OptProp(Obj(a), "meta"), "error") == Bool(true))
  }

  lemma ErrorReportedBy(creator: Creator, message: Val)
    ensures ErrorReported(creator.Create(message, MakeErrorDataResponseMeta(Undef)), creator, message)
  {
    var a := creator.Create(message, MakeErrorDataResponseMeta(Undef));
    if creator.DataCreator? {
      ResponseMetaTags(Obj(a), Undef, true);
    }
  }

  /** On a thrown error: false; nothing is dispatched without an error
      creator; with one, the error action (type of `errorAction`, else of
      `responseAction`) carries the extracted message and error response
      meta, then an error snackbar shows `errorMessage || message || 'Oops'`. */
  lemma {:induction false} CallApiThrown(c: ApiCall, t: Transport, o: CallOptions)
    requires Settle(t).Threw?
    ensures var tr, message := CallApiTrace(c, t, o), ErrorMessage(Settle(t).error);
      tr.ending == Finished(CallResult(false, None))
      && (o.ResolvedErrorAction().None? ==> |tr.effects| == 1)
      && (o.ResolvedErrorAction().Some? ==>
            |tr.effects| == 3 && tr.effects[1].Dispatch? && tr.effects[2].Snackbar?
            && ErrorReported(tr.effects[1].action, if o.errorAction.Some? then o.errorAction.value else o.responseAction.value, message)
            && tr.effects[2].content == ErrorSnackbar(OrElse(OrElse(o.errorMessage, message), Str("Oops"))))
  {
    var err := Settle(t).error;
    var rest := AfterThrow(err, o);
    assert CallApiTrace(c, t, o) == Trace([Send(Obj(SendOptions(c)))] + rest.effects, rest.ending);
    if o.ResolvedErrorAction().Some? {
      ErrorReportedBy(o.ResolvedErrorAction().value, ErrorMessage(err));
    }
  }

  /** On an `isError` response with an error creator: false, the error
      action carrying the controlled message (the transform's result if
      truthy, else the default), then an error snackbar with the same text. */
  lemma {:induction false} CallApiControlledError(c: ApiCall, t: Transport, o: CallOptions)
    requires Settle(t).Returned? && Truthy(OptProp(Settle(t).value, "isError"))
    requires o.ResolvedErrorAction().Some?
    ensures var tr, message := CallApiTrace(c, t, o), o.ControlledErrorMessage(Settle(t).value);
      tr.ending == Finished(CallResult(false, None))
      && |tr.effects| == 3 && tr.effects[1].Dispatch? && tr.effects[2].Snackbar?
      && ErrorReported(tr.effects[1].action, if o.errorAction.Some? then o.errorAction.value else o.responseAction.value, message)
      && tr.effects[2].content == ErrorSnackbar(message)
  {
    ErrorReportedBy(o.ResolvedErrorAction().value, o.ControlledErrorMessage(Settle(t).value));
  }

  /** A success action of the creator's type carrying the payload; from a
      data table it is a data response. */
  predicate SuccessReported(a: Action, creator: Creator, data: Val) {
    "type" in a && a["type"] == Str(creator.actionType) && Payload(a) == data
    && (creator.DataCreator? ==> IsDataResponseAction(Obj(a), Some(creator.actionType)) == Some(true))
  }

  /** An action made with response meta reports a success. */
  lemma SuccessReportedBy(creator: Creator, data: Val)
    ensures SuccessReported(creator.Create(data, MakeDataResponseMeta(Undef)), creator, data)
  {
    if creator.DataCreator? {
      ResponseMetaTags(Obj(creator.Create(data, MakeDataResponseMeta(Undef))), Undef, false);
    }
  }

  /** The success branch: with a success creator whose payload transform
      does not throw, one success action with the payload and response meta,
      which is what is captured, then a snackbar only when `successMessage`
      is set; otherwise nothing. */
  lemma {:induction false} AfterSuccessReports(response: Val, o: CallOptions)
    ensures var tr := AfterSuccess(response, o);
      tr.ending.Finished? && tr.ending.value.ok
      && (tr.ending.value.captured.Some? <==> o.ResolvedSuccessAction().Some? && o.SuccessPayload(response).Some?)
      && (tr.ending.value.captured.None? ==> tr.effects == [])
      && (tr.ending.value.captured.Some? ==>
            var data := o.SuccessPayload(response).value;
            tr.ending.value.captured == Some((data, DataResponseMeta))
            && |tr.effects| == (if Truthy(o.successMessage) then 2 else 1)
            && tr.effects[0].Dispatch? && SuccessReported(tr.effects[0].action, o.ResolvedSuccessAction().value, data)
            && (Truthy(o.successMessage) ==> tr.effects[1] == Snackbar(InfoSnackbar(o.successMessage))))
  {
    if o.ResolvedSuccessAction().Some? && o.SuccessPayload(response).Some? {
      var creator := o.ResolvedSuccessAction().value;
      SuccessReportedBy(creator, o.SuccessPayload(response).value);
    }
  }

  /** On a good response: true; the success action (type of
      `successAction`, else of `responseAction`) follows the request, with a
      snackbar only when `successMessage` is set. */
  lemma {:induction false} CallApiSuccess(c: ApiCall, t: Transport, o: CallOptions)
    requires Settle(t).Returned? && !Nullish(Settle(t).value) && !Truthy(OptProp(Settle(t).value, "isError"))
    ensures var tr, response := CallApiTrace(c, t, o), Settle(t).value;
      tr.ending.Finished? && tr.ending.value.ok
      && (tr.ending.value.captured.Some? <==> o.ResolvedSuccessAction().Some? && o.SuccessPayload(response).Some?)
      && (tr.ending.value.captured.None? ==> |tr.effects| == 1)
      && (tr.ending.value.captured.Some? ==>
            var creator := if o.successAction.Some? then o.successAction.value else o.responseAction.value;
            var data := o.SuccessPayload(response).value;
            tr.ending.value.captured == Some((data, DataResponseMeta))
            && |tr.effects| == (if Truthy(o.successMessage) then 3 else 2)
            && tr.effects[1].Dispatch? && SuccessReported(tr.effects[1].action, creator, data)
            && (Truthy(o.successMessage) ==> tr.effects[2] == Snackbar(InfoSnackbar(o.successMessage))))
  {
    var response := Settle(t).value;
    AfterSuccessReports(response, o);
    assert AfterSettle(Settle(t), o) == AfterSuccess(response, o);
  }

  // ---------------------------------------------------------------------
  // prepareAuthRequest

  /** `{ consumer: { key, secret }, signature_method, hash_function }`: the
      constructor reads only `signatureMethod` and `hashFunction`, so it sees
      the consumer alone. */
  function SagaConfig(key: Val, secret: Val): Config {
    Config(Obj(map["key" := key, "secret" := secret]), None, Undef, None, Undef, Undef, Undef, None, None)
  }

  /** The signer every saga builds: it always constructs, and it signs with
      PLAINTEXT (the signature is the signing key), whatever the saga asked
      for. */
  function SagaOauth(key: Val, secret: Val): (o: Oauth)
    ensures o.consumer == Obj(map["key" := key, "secret" := secret])
    ensures o.nonceLength == DefaultNonceLength && o.signatureMethod == Str("PLAINTEXT")
    ensures !Truthy(o.realm) && o.parameterSeparator == ", " && o.lastAmpersand == Bool(true)
    ensures forall b, k :: o.hashFunction(b, k) == k
  {
    var r := NewOauth(SagaConfig(key, secret));
    NewOauthDefaults(SagaConfig(key, secret));
    r.value
  }

  /** The random nonce picks and the clock reading of one `authorize` call. */
  datatype Entropy = Entropy(picks: seq<nat>, timestamp: int)

  predicate EnoughPicks(e: Entropy) {
    DefaultNonceLength <= |e.picks| && ValidPicks(e.picks)
  }

  /** sub occurs in url at position i. */
  predicate OccursAt(url: string, sub: string, i: int) {
    0 <= i <= |url| - |sub| && url[i..i + |sub|] == sub
  }

  /** `url.indexOf(sub) >= 0` */
  predicate Contains(url: string, sub: string) {
    exists i :: 0 <= i <= |url| && OccursAt(url, sub, i)
  }

  /** The value `url.indexOf(API_V2)` searches for. `shared/oauth` exports no
      `API_V2`, so the imported binding is undefined, and `indexOf` converts
      it to the text "undefined". */
  const ImportedApiV2: string := "undefined"

  /** The full URL of an API path: the origin before a path that holds
      `apiV2`, the versioned base URL otherwise. */
  function ResolveUrl(url: string, apiV2: string): string {
    if Contains(url, apiV2) then SmugmugApiOrigin + url else SmugmugBaseUrl + url
  }

  /** `{ Authorization }`, the object `toHeader` returns. */
  function AuthorizationHeader(value: string): Val {
    Obj(map["Authorization" := Str(value)])
  }

  /** What `prepareAuthRequest` returns: `[url, headers]`. */
  datatype AuthRequest = AuthRequest(url: string, headers: Val)

  /** `{ key: access_token, secret: access_token_secret }` */
  function AccessTokenPair(accessToken: Val): (r: Val)
    ensures r.Obj? && OptProp(r, "key") == OptProp(accessToken, "access_token")
    ensures OptProp(r, "secret") == OptProp(accessToken, "access_token_secret")
  {
    var m := map["key" := OptProp(accessToken, "access_token"), "secret" := OptProp(accessToken, "access_token_secret")];
    assert Prop(Obj(m), "key") == Some(m["key"]) && Prop(Obj(m), "secret") == Some(m["secret"]);
    Obj(m)
  }

  /** The signer built from the selected consumer credentials. */
  function CredentialsOauth(credentials: Val): Oauth {
    SagaOauth(OptProp(credentials, "key"), OptProp(credentials, "secret"))
  }

  /** The request `prepareAuthRequest` signs: `{ url, method }`. */
  function AuthGet(fullUrl: string, verb: Option<string>): Request {
    Request(Some(verb.GetOr("GET")), fullUrl, Undef, false)
  }

  /** `prepareAuthRequest(url, method)` given the selected consumer
      credentials and access token. Destructuring either when it is null or
      undefined throws; `authorize` throws on a malformed query. */
  function PrepareAuthRequest(credentials: Val, accessToken: Val, url: string, verb: Option<string>,
                              apiV2: string, e: Entropy, json: Val -> string): Ending<AuthRequest>
    requires EnoughPicks(e)
  {
    if Nullish(credentials) || Nullish(accessToken) then Crashed(TypeError)
    else
      var oauth := CredentialsOauth(credentials);
      var fullUrl := ResolveUrl(url, apiV2);
      match oauth.Authorized(AuthGet(fullUrl, verb), AccessTokenPair(accessToken), e.picks, e.timestamp, json)
      case Err(_) => Crashed(UriError)
      case Ok(fields) =>
        Finished(AuthRequest(fullUrl, AuthorizationHeader(oauth.HeaderValue(Obj(fields), Obj(map["Accept" := AcceptJson])))))
  }

  /** `prepareAuthRequest` fails exactly when a selected value is missing or
      the full URL's query is malformed. */
  lemma PrepareAuthRequestFails(credentials: Val, accessToken: Val, url: string, verb: Option<string>,
                                apiV2: string, e: Entropy, json: Val -> string)
    requires EnoughPicks(e)
    ensures PrepareAuthRequest(credentials, accessToken, url, verb, apiV2, e, json).Crashed? <==>
      Nullish(credentials) || Nullish(accessToken) || UrlToObject(ResolveUrl(url, apiV2)).None?
  {
  }

  /** When it succeeds, the URL is prefixed with the API origin when it
      already holds `API_V2` and with the base URL otherwise, and the headers
      are `{ Authorization }` for the fields `authorize` signs with the
      access token, the `Accept` extra taking no part in them. */
  lemma {:induction false} PrepareAuthRequestResult(credentials: Val, accessToken: Val, url: string, verb: Option<string>,
                                                    apiV2: string, e: Entropy, json: Val -> string)
    requires EnoughPicks(e)
    requires PrepareAuthRequest(credentials, accessToken, url, verb, apiV2, e, json).Finished?
    ensures var r := PrepareAuthRequest(credentials, accessToken, url, verb, apiV2, e, json).value;
      var oauth := CredentialsOauth(credentials);
      var signed := oauth.Authorized(AuthGet(r.url, verb), AccessTokenPair(accessToken), e.picks, e.timestamp, json);
      r.url == (if Contains(url, apiV2) then SmugmugApiOrigin else SmugmugBaseUrl) + url
      && signed.Ok?
      && r.headers == AuthorizationHeader(oauth.HeaderValue(Obj(signed.value), EmptyObject))
  {
    var oauth := CredentialsOauth(credentials);
    var fullUrl := ResolveUrl(url, apiV2);
    var signed := oauth.Authorized(AuthGet(fullUrl, verb), AccessTokenPair(accessToken), e.picks, e.timestamp, json);
    AcceptIgnored(oauth, signed.value);
  }

  /** The `Accept` extra is not an `oauth_` field, so the header leaves it out. */
  lemma AcceptIgnored(oauth: Oauth, fields: map<string, Val>)
    ensures oauth.HeaderValue(Obj(fields), Obj(map["Accept" := AcceptJson])) == oauth.HeaderValue(Obj(fields), EmptyObject)
  {
    assert !StartsWith("Accept", "oauth_") by {
      assert "Accept"[..6][0] == 'A' != "oauth_"[0];
    }
    oauth.HeaderIgnoresOtherFields(Obj(fields), EmptyObject, "Accept", AcceptJson);
    assert EmptyObject.props["Accept" := AcceptJson] == map["Accept" := AcceptJson];
  }

  /** What the resolution would be were `API_V2` the version segment
      `/api/v2`: a path that holds it keeps it once, with only the origin put
      in front, and any other path goes under the versioned base URL. The
      program's value is `ImportedApiV2` (see `ResolveUrlAsImported`). */
  lemma ResolveUrlVersioned(path: string)
    ensures ResolveUrl("/api/v2" + path, "/api/v2") == "https://api.smugmug.com/api/v2" + path
    ensures ResolveUrl("!authuser", "/api/v2") == "https://api.smugmug.com/api/v2!authuser"
  {
    var url := "/api/v2" + path;
    assert OccursAt(url, "/api/v2", 0);
    forall i | 0 <= i <= |"!authuser"| ensures !OccursAt("!authuser", "/api/v2", i) {
      if 0 <= i <= 2 {
        assert "!authuser"[i..i + 7][0] == "!authuser"[i] != '/';
      }
    }
  }

  /** The resolution as the program runs it, with `API_V2` undefined: a path
      without the text "undefined" always goes under the versioned base URL,
      so an API path that already starts with `/api/v2` gets the version
      segment twice, while `!authuser` resolves as intended. */
  lemma ResolveUrlAsImported(path: string)
    ensures !Contains("/api/v2" + path, ImportedApiV2) ==>
      ResolveUrl("/api/v2" + path, ImportedApiV2) == "https://api.smugmug.com/api/v2/api/v2" + path
    ensures ResolveUrl("!authuser", ImportedApiV2) == "https://api.smugmug.com/api/v2!authuser"
  {
    NotInAuthUser(ImportedApiV2);
  }

  /** "!authuser" holds neither the version segment nor the text
      "undefined". */
  lemma NotInAuthUser(sub: string)
    requires sub == "/api/v2" || sub == ImportedApiV2
    ensures !Contains("!authuser", sub)
  {
    forall i | 0 <= i <= |"!authuser"| ensures !OccursAt("!authuser", sub, i) {
      if i <= |"!authuser"| - |sub| {
        assert "!authuser"[i..i + |sub|][0] == "!authuser"[i] != sub[0];
      }
    }
  }
}
