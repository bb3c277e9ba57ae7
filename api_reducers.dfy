/** The api slice of the state: the consumer credentials, the request token
    of the sign-in handshake and the authorization URL shown to the user. */
module ApiReducers {
  import opened JsValues
  import opened ActionMeta
  import opened Redux
  import opened DataReducers

  /** Types from the api data-action table. */
  const RequestTokenType: string := ActionType("SMUGMUG_REQUEST_TOKEN")
  const AuthorizationUrlType: string := ActionType("SMUGMUG_AUTHORIZATION_URL")

  const CredentialsInitialState: Val := Obj(map["key" := Str(""), "secret" := Str("")])
  const RequestTokenInitialState: Val :=
    Obj(map["oauth_token" := Str(""), "oauth_token_secret" := Str(""), "oauth_callback_confirmed" := Bool(false)])
  const AuthorizationUrlInitialState: Val := Str("")

  /** `(_state, { payload }) => payload` */
  function TakePayload(state: Val, action: Action): Val {
    Payload(action)
  }

  /** `smugmugCredentials`. Its handler is keyed by an action creator the
      actions table does not export, so the key is a parameter here. */
  function SmugmugCredentials(credentialsKey: string, state: Val, action: Action): Val {
    HandleActions([Handler(credentialsKey, TakePayload)], CredentialsInitialState, state, action)
  }

  /** `smugmugRequestToken` */
  function SmugmugRequestToken(state: Val, action: Action): Val {
    DataSlice(RequestTokenType, RequestTokenInitialState, state, action)
  }

  /** `smugmugAuthorizationUrl` */
  function SmugmugAuthorizationUrl(state: Val, action: Action): Val {
    DataSlice(AuthorizationUrlType, AuthorizationUrlInitialState, state, action)
  }

  function Slices(credentialsKey: string, state: Val, action: Action): seq<(string, Val)> {
    [("smugmugAuthorizationUrl", SmugmugAuthorizationUrl(Prior(state, "smugmugAuthorizationUrl"), action)),
     ("smugmugCredentials", SmugmugCredentials(credentialsKey, Prior(state, "smugmugCredentials"), action)),
     ("smugmugRequestToken", SmugmugRequestToken(Prior(state, "smugmugRequestToken"), action))]
  }

  /** The combined api reducer. */
  function Root(credentialsKey: string, state: Val, action: Action): Option<map<string, Val>> {
    if state.Null? then None else Combine(Slices(credentialsKey, state, action))
  }

  /** Credentials take the payload of any action of their type, whatever its
      meta; the request token and the authorization URL take the payload only
      of a data response of their own type. Otherwise each keeps its state. */
  lemma {:induction false} SliceSteps(credentialsKey: string, state: Val, action: Action)
    ensures SmugmugCredentials(credentialsKey, state, action) ==
      if Matches(credentialsKey, action) then Payload(action) else OrDefault(state, CredentialsInitialState)
    ensures SmugmugRequestToken(state, action) ==
      if Matches(RequestTokenType, action) && IsResponse(action) then Payload(action)
      else OrDefault(state, RequestTokenInitialState)
    ensures SmugmugAuthorizationUrl(state, action) ==
      if Matches(AuthorizationUrlType, action) && IsResponse(action) then Payload(action)
      else OrDefault(state, AuthorizationUrlInitialState)
  {
    var handlers := [Handler(credentialsKey, TakePayload)];
    if Matches(credentialsKey, action) {
      RunHandlersOne(handlers, 0, CredentialsInitialState, OrDefault(state, CredentialsInitialState), action);
    }
    DataSliceStep(RequestTokenType, RequestTokenInitialState, state, action);
    DataSliceStep(AuthorizationUrlType, AuthorizationUrlInitialState, state, action);
  }

  /** A slice reducer yields undefined exactly when it takes the payload of
      its action and that payload is undefined. */
  lemma {:induction false} SliceUndefined(credentialsKey: string, state: Val, action: Action)
    ensures SmugmugCredentials(credentialsKey, state, action).Undef? <==>
      Matches(credentialsKey, action) && Payload(action).Undef?
    ensures SmugmugRequestToken(state, action).Undef? <==>
      Matches(RequestTokenType, action) && IsResponse(action) && Payload(action).Undef?
    ensures SmugmugAuthorizationUrl(state, action).Undef? <==>
      Matches(AuthorizationUrlType, action) && IsResponse(action) && Payload(action).Undef?
  {
    SliceSteps(credentialsKey, state, action);
  }

  /** The combined reducer fails only on a null prior state or when the
      targeted slice would become undefined (no payload). */
  lemma {:induction false} RootFails(credentialsKey: string, state: Val, action: Action)
    ensures Root(credentialsKey, state, action).None? <==>
      (state.Null?
        || (Matches(credentialsKey, action) && Payload(action).Undef?)
        || (Matches(RequestTokenType, action) && IsResponse(action) && Payload(action).Undef?)
        || (Matches(AuthorizationUrlType, action) && IsResponse(action) && Payload(action).Undef?))
  {
    var u := SmugmugAuthorizationUrl(Prior(state, "smugmugAuthorizationUrl"), action);
    var c := SmugmugCredentials(credentialsKey, Prior(state, "smugmugCredentials"), action);
    var t := SmugmugRequestToken(Prior(state, "smugmugRequestToken"), action);
    Combine3("smugmugAuthorizationUrl", u, "smugmugCredentials", c, "smugmugRequestToken", t);
    SliceUndefined(credentialsKey, Prior(state, "smugmugAuthorizationUrl"), action);
    SliceUndefined(credentialsKey, Prior(state, "smugmugCredentials"), action);
    SliceUndefined(credentialsKey, Prior(state, "smugmugRequestToken"), action);
  }

  /** The combined state has exactly the three slices, each its reducer's
      result on its prior value. */
  lemma {:induction false} RootShape(credentialsKey: string, state: Val, action: Action)
    ensures Root(credentialsKey, state, action).Some? ==>
      Root(credentialsKey, state, action).value == map[
        "smugmugAuthorizationUrl" := SmugmugAuthorizationUrl(Prior(state, "smugmugAuthorizationUrl"), action),
        "smugmugCredentials" := SmugmugCredentials(credentialsKey, Prior(state, "smugmugCredentials"), action),
        "smugmugRequestToken" := SmugmugRequestToken(Prior(state, "smugmugRequestToken"), action)]
  {
    var u := SmugmugAuthorizationUrl(Prior(state, "smugmugAuthorizationUrl"), action);
    var c := SmugmugCredentials(credentialsKey, Prior(state, "smugmugCredentials"), action);
    var t := SmugmugRequestToken(Prior(state, "smugmugRequestToken"), action);
    Combine3("smugmugAuthorizationUrl", u, "smugmugCredentials", c, "smugmugRequestToken", t);
  }

  /** The api state has exactly the three slice names, so the keys the
      consumer-credentials and access-token selectors read are never there:
      both selectors answer undefined. */
  lemma {:induction false} RootKeys(credentialsKey: string, state: Val, action: Action)
    ensures Root(credentialsKey, state, action).Some? ==>
      Root(credentialsKey, state, action).value.Keys ==
        {"smugmugAuthorizationUrl", "smugmugCredentials", "smugmugRequestToken"}
    ensures Root(credentialsKey, state, action).Some? ==>
      OptProp(Obj(Root(credentialsKey, state, action).value), "smugmugConsumerCredentials").Undef?
      && OptProp(Obj(Root(credentialsKey, state, action).value), "smugmugAccessToken").Undef?
  {
    RootShape(credentialsKey, state, action);
    if Root(credentialsKey, state, action).Some? {
      var m := Root(credentialsKey, state, action).value;
      SelectedKeysNotSlices();
      assert "smugmugConsumerCredentials" !in m && "smugmugAccessToken" !in m;
    }
  }

  /** The two names the selectors read differ from the three slice names. */
  lemma SelectedKeysNotSlices()
    ensures "smugmugConsumerCredentials" !in {"smugmugAuthorizationUrl", "smugmugCredentials", "smugmugRequestToken"}
    ensures "smugmugAccessToken" !in {"smugmugAuthorizationUrl", "smugmugCredentials", "smugmugRequestToken"}
  {
    assert |"smugmugConsumerCredentials"| == 26;
    assert |"smugmugAccessToken"| == 18 && "smugmugAccessToken"[7] == 'A' && "smugmugCredentials"[7] == 'C';
  }

  /** The initial state: credentials `{key: '', secret: ''}`, request token
      `{oauth_token: '', oauth_token_secret: '', oauth_callback_confirmed:
      false}` and authorization URL `''`. */
  lemma InitialState(credentialsKey: string, action: Action)
    requires !Matches(credentialsKey, action) && !Matches(RequestTokenType, action) && !Matches(AuthorizationUrlType, action)
    ensures Root(credentialsKey, Undef, action) == Some(map[
      "smugmugAuthorizationUrl" := AuthorizationUrlInitialState,
      "smugmugCredentials" := CredentialsInitialState,
      "smugmugRequestToken" := RequestTokenInitialState])
  {
    assert Prior(Undef, "smugmugAuthorizationUrl") == Undef;
    assert Prior(Undef, "smugmugCredentials") == Undef;
    assert Prior(Undef, "smugmugRequestToken") == Undef;
    SliceSteps(credentialsKey, Undef, action);
    Combine3("smugmugAuthorizationUrl", AuthorizationUrlInitialState, "smugmugCredentials", CredentialsInitialState,
      "smugmugRequestToken", RequestTokenInitialState);
  }

  /** An action changes at most the slice it targets: with distinct keys, an
      action matches at most one of them, and every slice it does not match
      keeps its prior value. */
  lemma {:induction false} OnlyTargetChanges(credentialsKey: string, state: Val, action: Action)
    requires credentialsKey != RequestTokenType && credentialsKey != AuthorizationUrlType
    ensures !(Matches(credentialsKey, action) && Matches(RequestTokenType, action))
    ensures !(Matches(credentialsKey, action) && Matches(AuthorizationUrlType, action))
    ensures !(Matches(RequestTokenType, action) && Matches(AuthorizationUrlType, action))
    ensures !Matches(credentialsKey, action) ==>
      SmugmugCredentials(credentialsKey, state, action) == OrDefault(state, CredentialsInitialState)
    ensures !Matches(RequestTokenType, action) ==>
      SmugmugRequestToken(state, action) == OrDefault(state, RequestTokenInitialState)
    ensures !Matches(AuthorizationUrlType, action) ==>
      SmugmugAuthorizationUrl(state, action) == OrDefault(state, AuthorizationUrlInitialState)
  {
    SliceSteps(credentialsKey, state, action);
    assert RequestTokenType[8] != AuthorizationUrlType[8];
  }
}
