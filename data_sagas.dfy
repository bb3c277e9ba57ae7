/** The data sagas that fetch the signed-in user's summary and run an
    explorer query: each signs one `GET` with `prepareAuthRequest` and hands
    it to `callApi`. The explorer query turns SmugMug's own error answers
    into a readable message. */
module DataSagas {
  import opened JsValues
  import opened ActionMeta
  import opened SagaRuntime
  import opened ApiUtils
  import SummaryReducers
  import ExploreReducers

  // ---------------------------------------------------------------------
  // One signed call

  /** The signed `GET` that `callApi(getRequest, requestArgs, …)` sends. */
  function AuthorizedGet(req: AuthRequest): ApiCall {
    GetRequest(Str(req.url), req.headers)
  }

  /** A step that ends with its call: the call's effects, and its crash if
      it crashed. */
  function Finish(tr: Trace<CallResult>): (r: Trace<()>)
    ensures r.effects == tr.effects && (r.ending.Crashed? <==> tr.ending.Crashed?)
    ensures r.ending.Crashed? ==> r.ending.error == tr.ending.error
  {
    Trace(tr.effects, if tr.ending.Crashed? then Crashed(tr.ending.error) else Finished(()))
  }

  /** `const requestArgs = yield* prepareAuthRequest(path); yield* callApi(getRequest, requestArgs, options);` */
  function SignedCall(credentials: Val, accessToken: Val, path: string, apiV2: string, e: Entropy,
                      json: Val -> string, t: Transport, o: CallOptions): Trace<()>
    requires EnoughPicks(e)
  {
    match PrepareAuthRequest(credentials, accessToken, path, None, apiV2, e, json)
    case Crashed(err) => Trace([], Crashed(err))
    case Finished(req) => Finish(CallApiTrace(AuthorizedGet(req), t, o))
  }

  /** Sign the path, then call the API with the signed request. */
  method CallSigned(rt: Runtime, credentials: Val, accessToken: Val, path: string, apiV2: string, e: Entropy,
                    json: Val -> string, t: Transport, o: CallOptions) returns (ending: Ending<()>)
    requires EnoughPicks(e)
    modifies rt
    ensures var run := SignedCall(credentials, accessToken, path, apiV2, e, json, t, o);
      rt.effects == old(rt.effects) + run.effects && rt.storage == old(rt.storage) && ending == run.ending
  {
    var requestArgs := PrepareAuthRequest(credentials, accessToken, path, None, apiV2, e, json);
    if requestArgs.Crashed? {
      return Crashed(requestArgs.error);
    }
    var result := CallApi(rt, AuthorizedGet(requestArgs.value), t, o);
    ending := if result.Crashed? then Crashed(result.error) else Finished(());
  }

  /** Signing fails without a request being sent; once signed, the step is
      exactly its call. */
  lemma SignedCallSends(credentials: Val, accessToken: Val, path: string, apiV2: string, e: Entropy,
                        json: Val -> string, t: Transport, o: CallOptions)
    requires EnoughPicks(e)
    ensures var run, signed := SignedCall(credentials, accessToken, path, apiV2, e, json, t, o),
                               PrepareAuthRequest(credentials, accessToken, path, None, apiV2, e, json);
      (signed.Crashed? ==> run == Trace([], Crashed(signed.error)))
      && (signed.Finished? ==>
            var tr := CallApiTrace(AuthorizedGet(signed.value), t, o);
            run.effects == tr.effects && run.effects[0] == Send(Obj(SendOptions(AuthorizedGet(signed.value))))
            && (run.ending.Crashed? <==> tr.ending.Crashed?))
  {
    var signed := PrepareAuthRequest(credentials, accessToken, path, None, apiV2, e, json);
    if signed.Finished? {
      CallApiSendsOnce(AuthorizedGet(signed.value), t, o);
    }
  }

  // ---------------------------------------------------------------------
  // summaryDataSaga

  /** The signed-in user's own endpoint. */
  const SummaryPath: string := "!authuser"

  /** `data => data.Response.User`; None stands for the TypeError thrown
      when the answer has no `Response`, which `callApi` swallows. */
  function SummaryUser(data: Val): (r: Option<Val>)
    ensures r.None? <==> Nullish(data) || Nullish(OptProp(data, "Response"))
    ensures r.Some? ==> r.value == OptProp(OptProp(data, "Response"), "User")
  {
    match Prop(data, "Response")
    case None => None
    case Some(response) => Prop(response, "User")
  }

  /** `{ responseAction: summaryDataAction, successPayloadTransform }` */
  function SummaryOptions(): CallOptions {
    CallOptions(Some(DataCreator(SummaryReducers.SummaryDataType)), None, Some(SummaryUser), None, Undef, Undef, None)
  }

  /** `summaryDataSaga(action)`, given the selected consumer credentials and
      access token. */
  function SummaryRun(credentials: Val, accessToken: Val, apiV2: string, e: Entropy, json: Val -> string, t: Transport)
    : Trace<()>
    requires EnoughPicks(e)
  {
    SignedCall(credentials, accessToken, SummaryPath, apiV2, e, json, t, SummaryOptions())
  }

  method SummaryDataSaga(rt: Runtime, credentials: Val, accessToken: Val, apiV2: string, e: Entropy,
                         json: Val -> string, t: Transport) returns (ending: Ending<()>)
    requires EnoughPicks(e)
    modifies rt
    ensures var run := SummaryRun(credentials, accessToken, apiV2, e, json, t);
      rt.effects == old(rt.effects) + run.effects && rt.storage == old(rt.storage) && ending == run.ending
  {
    ending := CallSigned(rt, credentials, accessToken, SummaryPath, apiV2, e, json, t, SummaryOptions());
  }

  /** A good summary answer stores its `Response.User` as the summary data;
      one without `Response` dispatches nothing, though the call still
      counts as a success. */
  lemma SummaryStoresUser(c: ApiCall, t: Transport)
    requires Settle(t).Returned? && !Nullish(Settle(t).value) && !Truthy(OptProp(Settle(t).value, "isError"))
    ensures var tr, response := CallApiTrace(c, t, SummaryOptions()), Settle(t).value;
      var user := OptProp(OptProp(response, "Response"), "User");
      tr.ending.Finished? && tr.ending.value.ok
      && (Nullish(OptProp(response, "Response")) ==> tr.effects == [Send(Obj(SendOptions(c)))])
      && (!Nullish(OptProp(response, "Response")) ==>
            tr.effects == [Send(Obj(SendOptions(c))), Dispatch(DataAction(SummaryReducers.SummaryDataType, user, DataResponseMeta))])
  {
    var response := Settle(t).value;
    assert AfterSettle(Settle(t), SummaryOptions()) == AfterSuccess(response, SummaryOptions());
    SummaryAfterSuccess(response);
  }

  /** The success branch of the summary call: the user under `Response`, or
      nothing when there is no `Response`. */
  lemma SummaryAfterSuccess(response: Val)
    requires !Nullish(response)
    ensures var after, user := AfterSuccess(response, SummaryOptions()), OptProp(OptProp(response, "Response"), "User");
      after.ending.Finished? && after.ending.value.ok
      && (Nullish(OptProp(response, "Response")) ==> after.effects == [])
      && (!Nullish(OptProp(response, "Response")) ==>
            after.effects == [Dispatch(DataAction(SummaryReducers.SummaryDataType, user, DataResponseMeta))])
  {
    assert MakeDataResponseMeta(Undef) == DataResponseMeta;
  }

  // ---------------------------------------------------------------------
  // exploreDataSaga

  const ExploreSuccessMessage: string := "Query succeeded. View the results in redux state."

  /** `controlledErrorTransform(res)`: with a `Code` and a `Message`, a
      message naming both (and the queried endpoint when the answer
      describes it); otherwise undefined. `callApi` only calls it on an
      answer it has already read `isError` of, so never on null or
      undefined. */
  function ControlledErrorTransform(res: Val): (r: Val)
    ensures Truthy(r) <==> Truthy(OptProp(res, "Code")) && Truthy(OptProp(res, "Message"))
    ensures !Truthy(r) ==> r == Undef
  {
    var code, message := OptProp(res, "Code"), OptProp(res, "Message");
    if Truthy(code) && Truthy(message) then
      var response := OptProp(res, "Response");
      if Truthy(OptProp(response, "UriDescription")) then
        Str("Query for " + ToJsString(OptProp(response, "UriDescription")) + " " + ToJsString(OptProp(response, "EndpointType"))
            + " " + ToJsString(message) + " (" + ToJsString(code) + ")")
      else Str("Error: " + ToJsString(message) + " " + ToJsString(code))
    else Undef
  }

  /** The text of a SmugMug error: the described endpoint and its type, then
      the message and the code in parentheses; without a description, the
      message and the code after `Error: `. */
  lemma ControlledErrorText(res: Val)
    requires Truthy(OptProp(res, "Code")) && Truthy(OptProp(res, "Message"))
    ensures var response, code, message := OptProp(res, "Response"), ToJsString(OptProp(res, "Code")), ToJsString(OptProp(res, "Message"));
      var text := ControlledErrorTransform(res);
      text.Str?
      && (Truthy(OptProp(response, "UriDescription")) ==>
            text.s[..10] == "Query for " && text.s[|text.s| - |code| - 3..] == " (" + code + ")")
      && (!Truthy(OptProp(response, "UriDescription")) ==>
            text.s == "Error: " + message + " " + code)
  {
    var response, code, message := OptProp(res, "Response"), ToJsString(OptProp(res, "Code")), ToJsString(OptProp(res, "Message"));
    if Truthy(OptProp(response, "UriDescription")) {
      var head := "Query for " + ToJsString(OptProp(response, "UriDescription")) + " " + ToJsString(OptProp(response, "EndpointType"))
                  + " " + message;
      var tail := " (" + code + ")";
      var text := ControlledErrorTransform(res).s;
      assert text == head + tail;
      assert text[|text| - |code| - 3..] == tail;
      assert text[..10] == head[..10];
    }
  }

  /** `{ responseAction: exploreDataAction, successMessage, controlledErrorTransform }` */
  function ExploreOptions(): CallOptions {
    CallOptions(Some(DataCreator(ExploreReducers.ExploreDataType)), None, None, None, Str(ExploreSuccessMessage), Undef,
                Some(ControlledErrorTransform))
  }

  /** `exploreDataSaga({ payload: { query } })`: destructuring a null or
      undefined payload throws. A string query is signed; any other query is
      a TypeError here, which the source raises for a query without
      `indexOf` (an array query is outside this model). */
  function ExploreRun(payload: Val, credentials: Val, accessToken: Val, apiV2: string, e: Entropy,
                      json: Val -> string, t: Transport): Trace<()>
    requires EnoughPicks(e)
  {
    if Nullish(payload) || !OptProp(payload, "query").Str? then Trace([], Crashed(TypeError))
    else SignedCall(credentials, accessToken, OptProp(payload, "query").s, apiV2, e, json, t, ExploreOptions())
  }

  method ExploreDataSaga(rt: Runtime, payload: Val, credentials: Val, accessToken: Val, apiV2: string, e: Entropy,
                         json: Val -> string, t: Transport) returns (ending: Ending<()>)
    requires EnoughPicks(e)
    modifies rt
    ensures var run := ExploreRun(payload, credentials, accessToken, apiV2, e, json, t);
      rt.effects == old(rt.effects) + run.effects && rt.storage == old(rt.storage) && ending == run.ending
  {
    if Nullish(payload) {
      return Crashed(TypeError);
    }
    var query := OptProp(payload, "query");
    if !query.Str? {
      return Crashed(TypeError);
    }
    ending := CallSigned(rt, credentials, accessToken, query.s, apiV2, e, json, t, ExploreOptions());
  }

  /** A SmugMug error answer to a query is reported, as the explore action
      and an error snackbar, with SmugMug's own message and code when it has
      both, and with the default message otherwise. */
  lemma ExploreErrorMessage(c: ApiCall, t: Transport)
    requires Settle(t).Returned? && Truthy(OptProp(Settle(t).value, "isError"))
    ensures var tr, res := CallApiTrace(c, t, ExploreOptions()), Settle(t).value;
      var message := if Truthy(OptProp(res, "Code")) && Truthy(OptProp(res, "Message")) then ControlledErrorTransform(res)
                     else Str(DefaultApiError);
      tr.ending == Finished(CallResult(false, None))
      && |tr.effects| == 3 && tr.effects[1].Dispatch?
      && ErrorReported(tr.effects[1].action, DataCreator(ExploreReducers.ExploreDataType), message)
      && tr.effects[2] == Snackbar(ErrorSnackbar(message))
  {
    CallApiControlledError(c, t, ExploreOptions());
  }

  /** A good answer to a query becomes the explore data as it is, followed
      by the success snackbar. */
  lemma ExploreSucceeds(c: ApiCall, t: Transport)
    requires Settle(t).Returned? && !Nullish(Settle(t).value) && !Truthy(OptProp(Settle(t).value, "isError"))
    ensures var tr, response := CallApiTrace(c, t, ExploreOptions()), Settle(t).value;
      tr == Trace([Send(Obj(SendOptions(c))), Dispatch(DataAction(ExploreReducers.ExploreDataType, response, DataResponseMeta)),
                   Snackbar(InfoSnackbar(Str(ExploreSuccessMessage)))],
                  Finished(CallResult(true, Some((response, DataResponseMeta)))))
  {
    var response := Settle(t).value;
    assert AfterSettle(Settle(t), ExploreOptions()) == AfterSuccess(response, ExploreOptions());
    assert MakeDataResponseMeta(Undef) == DataResponseMeta;
  }
}
