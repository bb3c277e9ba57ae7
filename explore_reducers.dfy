/** The explore slice of the state: the result of the last explore query
    and its loading flag, both driven by `exploreDataAction`. */
module ExploreReducers {
  import opened JsValues
  import opened ActionMeta
  import opened Redux
  import opened DataReducers

  /** The type of `exploreDataAction`, from the explore data-action table. */
  const ExploreDataType: string := ActionType("EXPLORE_DATA")

  /** `explore` */
  function Explore(state: Val, action: Action): Val {
    DataSlice(ExploreDataType, EmptyObject, state, action)
  }

  /** `exploreLoading` */
  function ExploreLoading(state: Val, action: Action): Val {
    LoadingSlice(ExploreDataType, state, action)
  }

  /** The combined explore reducer. */
  function Root(state: Val, action: Action): Option<map<string, Val>> {
    if state.Null? then None
    else Combine([("explore", Explore(Prior(state, "explore"), action)), ("exploreLoading", ExploreLoading(Prior(state, "exploreLoading"), action))])
  }

  /** Before any explore action both slices are at their initial values: the
      data `{}` and the flag false. */
  lemma InitialState(action: Action)
    requires !Matches(ExploreDataType, action)
    ensures Root(Undef, action) == Some(map["explore" := EmptyObject, "exploreLoading" := Bool(false)])
  {
    DataSliceStep(ExploreDataType, EmptyObject, Undef, action);
    LoadingSliceStep(ExploreDataType, Undef, action);
    RootShape(Undef, action);
    var r := Root(Undef, action).value;
    assert r == map["explore" := EmptyObject, "exploreLoading" := Bool(false)];
  }

  /** The data takes the payload of an explore response and nothing else
      changes it; a request leaves it as it was. */
  lemma ExploreStep(state: Val, action: Action)
    ensures Explore(state, action) ==
      if Matches(ExploreDataType, action) && IsResponse(action) then Payload(action) else OrDefault(state, EmptyObject)
    ensures IsDataRequestAction(Obj(action), None) == Some(true) ==> Explore(state, action) == OrDefault(state, EmptyObject)
  {
    DataSliceStep(ExploreDataType, EmptyObject, state, action);
    RequestResponseExclusive(Obj(action), None, None);
  }

  /** The flag goes up on a foreground explore request, down on an explore
      response, and a background request leaves it unchanged. */
  lemma ExploreLoadingStep(state: Val, action: Action)
    ensures Matches(ExploreDataType, action) && IsForegroundRequest(action) ==> ExploreLoading(state, action) == Bool(true)
    ensures Matches(ExploreDataType, action) && IsResponse(action) ==> ExploreLoading(state, action) == Bool(false)
    ensures IsDataRequestAction(Obj(action), None) == Some(true) && IsBackgroundDataRequest(Obj(action)) == Some(true) ==>
      ExploreLoading(state, action) == OrDefault(state, Bool(false))
  {
    LoadingSliceStep(ExploreDataType, state, action);
    RequestResponseExclusive(Obj(action), None, None);
  }

  /** The combined state has exactly the two slices; it fails only when an
      explore response carries no payload (a slice may not become undefined)
      or the prior state is null. */
  lemma RootShape(state: Val, action: Action)
    ensures var r := Root(state, action);
      (r.None? <==> state.Null? || (Matches(ExploreDataType, action) && IsResponse(action) && Payload(action).Undef?))
      && (r.Some? ==>
            r.value.Keys == {"explore", "exploreLoading"}
            && r.value["explore"] == Explore(Prior(state, "explore"), action)
            && r.value["exploreLoading"] == ExploreLoading(Prior(state, "exploreLoading"), action))
  {
    ExploreStep(Prior(state, "explore"), action);
    LoadingSliceStep(ExploreDataType, Prior(state, "exploreLoading"), action);
    Combine2("explore", Explore(Prior(state, "explore"), action), "exploreLoading", ExploreLoading(Prior(state, "exploreLoading"), action));
  }
}
