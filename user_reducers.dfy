/** The user slice of the state: the signed-in user's data, replaced by the
    payload of each `userDataAction` response. */
module UserReducers {
  import opened JsValues
  import opened ActionMeta
  import opened Redux
  import opened DataReducers

  /** The type of `userDataAction`, from the user data-action table. */
  const UserDataType: string := ActionType("USER_DATA")

  /** `userData` */
  function UserData(state: Val, action: Action): Val {
    DataSlice(UserDataType, EmptyObject, state, action)
  }

  /** The combined user reducer. */
  function Root(state: Val, action: Action): Option<map<string, Val>> {
    if state.Null? then None else Combine([("userData", UserData(Prior(state, "userData"), action))])
  }

  /** The combined state is `{userData}` with the slice's new value; it fails
      only on a null prior state or a user response without a payload. */
  lemma {:induction false} RootStep(state: Val, action: Action)
    ensures Root(state, action).None? <==>
      (state.Null? || (Matches(UserDataType, action) && IsResponse(action) && Payload(action).Undef?))
    ensures Root(state, action).Some? ==>
      Root(state, action).value ==
        map["userData" := if Matches(UserDataType, action) && IsResponse(action) then Payload(action)
                          else OrDefault(Prior(state, "userData"), EmptyObject)]
  {
    DataSliceStep(UserDataType, EmptyObject, Prior(state, "userData"), action);
    if !state.Null? {
      var slices := [("userData", UserData(Prior(state, "userData"), action))];
      assert (set i | 0 <= i < |slices| :: slices[i].0) == {"userData"} by {
        assert slices[0].0 == "userData";
      }
      var r := Combine(slices);
      if r.Some? {
        assert r.value["userData"] == slices[0].1;
      }
    }
  }

  /** The initial state is `{}`: an action of another type on an empty
      combined state leaves `userData` at `{}`. */
  lemma InitialState(action: Action)
    requires !Matches(UserDataType, action)
    ensures Root(Undef, action) == Some(map["userData" := EmptyObject])
    ensures Root(EmptyObject, action) == Some(map["userData" := EmptyObject])
  {
    RootStep(Undef, action);
    RootStep(EmptyObject, action);
  }

  /** A user data response replaces the state with its payload; a user data
      request leaves it unchanged. */
  lemma ResponseAndRequest(data: Val)
    requires data != Undef
    ensures Root(EmptyObject, DataAction(UserDataType, data, DataResponseMeta)) == Some(map["userData" := data])
    ensures Root(EmptyObject, DataAction(UserDataType, data, DataRequestMeta)) == Some(map["userData" := EmptyObject])
  {
    var response := DataAction(UserDataType, data, DataResponseMeta);
    var request := DataAction(UserDataType, data, DataRequestMeta);
    assert Matches(UserDataType, response) && Payload(response) == data;
    assert MetaType(Obj(response)) == Str(DataResponseType);
    assert MetaType(Obj(request)) == Str(DataRequestType);
    RootStep(EmptyObject, response);
    RootStep(EmptyObject, request);
  }

  /** Applying the same action twice is the same as applying it once. */
  lemma Idempotent(state: Val, action: Action)
    requires Root(state, action).Some?
    ensures Root(Obj(Root(state, action).value), action) == Root(state, action)
  {
    RootStep(state, action);
    var once := Root(state, action).value;
    RootStep(Obj(once), action);
  }
}
