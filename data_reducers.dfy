/** The two handler shapes every data slice of the state is written with: a
    data slice that takes the payload of a data response, and a loading flag
    that goes up on a foreground data request and down on a data response.
    Each is a `handleActions` with one handler under the slice's action type. */
module DataReducers {
  import opened JsValues
  import opened ActionMeta
  import opened Redux

  /** `isDataResponseAction(action)` with no filter. */
  predicate IsResponse(action: Action) {
    IsDataResponseAction(Obj(action), None) == Some(true)
  }

  /** `isDataRequestAction(action) && !isBackgroundDataRequest(action)`. */
  predicate IsForegroundRequest(action: Action) {
    IsDataRequestAction(Obj(action), None) == Some(true) && IsBackgroundDataRequest(Obj(action)) != Some(true)
  }

  /** `(state, action) => isDataResponseAction(action) ? action.payload : state` */
  function ReplaceOnResponse(state: Val, action: Action): Val {
    if IsResponse(action) then Payload(action) else state
  }

  /** The loading handler: true on a foreground request, false on a response. */
  function LoadingOnRequest(state: Val, action: Action): Val {
    if IsForegroundRequest(action) then Bool(true)
    else if IsResponse(action) then Bool(false)
    else state
  }

  function DataSlice(actionType: string, initial: Val, state: Val, action: Action): Val {
    HandleActions([Handler(actionType, ReplaceOnResponse)], initial, state, action)
  }

  function LoadingSlice(actionType: string, state: Val, action: Action): Val {
    HandleActions([Handler(actionType, LoadingOnRequest)], Bool(false), state, action)
  }

  /** A data slice takes the payload exactly on a data response of its own
      type; otherwise it keeps its state (the initial one when undefined). */
  lemma DataSliceStep(actionType: string, initial: Val, state: Val, action: Action)
    ensures DataSlice(actionType, initial, state, action) ==
      if Matches(actionType, action) && IsResponse(action) then Payload(action) else OrDefault(state, initial)
  {
  }

  /** A loading flag is true after a foreground request of its type, false
      after a response of its type, and otherwise unchanged (false when
      undefined): a background request leaves it as it was. */
  lemma LoadingSliceStep(actionType: string, state: Val, action: Action)
    ensures Matches(actionType, action) && IsForegroundRequest(action) ==> LoadingSlice(actionType, state, action) == Bool(true)
    ensures Matches(actionType, action) && IsResponse(action) ==> LoadingSlice(actionType, state, action) == Bool(false)
    ensures !(Matches(actionType, action) && (IsForegroundRequest(action) || IsResponse(action))) ==>
      LoadingSlice(actionType, state, action) == OrDefault(state, Bool(false))
  {
    RequestResponseExclusive(Obj(action), None, None);
  }

  /** Applying the same action twice to a data slice is the same as once. */
  lemma DataSliceIdempotent(actionType: string, initial: Val, state: Val, action: Action)
    ensures var once := DataSlice(actionType, initial, state, action);
      DataSlice(actionType, initial, once, action) == once
  {
    DataSliceStep(actionType, initial, state, action);
    var once := DataSlice(actionType, initial, state, action);
    DataSliceStep(actionType, initial, once, action);
  }

  /** Applying the same action twice to a loading flag is the same as once. */
  lemma LoadingSliceIdempotent(actionType: string, state: Val, action: Action)
    ensures var once := LoadingSlice(actionType, state, action);
      LoadingSlice(actionType, once, action) == once
  {
    LoadingSliceStep(actionType, state, action);
    var once := LoadingSlice(actionType, state, action);
    LoadingSliceStep(actionType, once, action);
  }
}
