/** The home-features slice of the state: the home page data and the
    featured-albums data, each with its own loading flag, driven by
    `homePageDataAction` and `homePageFeaturesDataAction`. */
module HomeFeaturesReducers {
  import opened JsValues
  import opened ActionMeta
  import opened Redux
  import opened DataReducers

  /** Types from the data-action table of the home-features actions. */
  const HomePageDataType: string := ActionType("HOME_PAGE_DATA")
  const HomePageFeaturesDataType: string := ActionType("HOME_PAGE_FEATURES_DATA")
  /** Types of the two identity actions of the same table. */
  const HomePageDataProgressType: string := "HOME_PAGE_DATA_PROGRESS_ACTION"
  const HomePageFeaturesDataProgressType: string := "HOME_PAGE_FEATURES_DATA_PROGRESS_ACTION"

  /** `homePageData` */
  function HomePageData(state: Val, action: Action): Val {
    DataSlice(HomePageDataType, EmptyObject, state, action)
  }

  /** `homePageDataLoading` */
  function HomePageDataLoading(state: Val, action: Action): Val {
    LoadingSlice(HomePageDataType, state, action)
  }

  /** `homePageFeaturesData` */
  function HomePageFeaturesData(state: Val, action: Action): Val {
    DataSlice(HomePageFeaturesDataType, EmptyObject, state, action)
  }

  /** `homePageFeaturesDataLoading` */
  function HomePageFeaturesDataLoading(state: Val, action: Action): Val {
    LoadingSlice(HomePageFeaturesDataType, state, action)
  }

  /** The four slices after the action, each computed from its prior value. */
  function Slices(state: Val, action: Action): seq<(string, Val)> {
    [("homePageData", HomePageData(Prior(state, "homePageData"), action)),
     ("homePageDataLoading", HomePageDataLoading(Prior(state, "homePageDataLoading"), action)),
     ("homePageFeaturesData", HomePageFeaturesData(Prior(state, "homePageFeaturesData"), action)),
     ("homePageFeaturesDataLoading", HomePageFeaturesDataLoading(Prior(state, "homePageFeaturesDataLoading"), action))]
  }

  /** The combined home-features reducer. */
  function Root(state: Val, action: Action): Option<map<string, Val>> {
    if state.Null? then None else Combine(Slices(state, action))
  }

  /** The four slices after the action as one map, or None when the prior
      state is null or a slice would become undefined. */
  lemma {:induction false} RootCombined(state: Val, action: Action)
    ensures var d := HomePageData(Prior(state, "homePageData"), action);
      var dl := HomePageDataLoading(Prior(state, "homePageDataLoading"), action);
      var f := HomePageFeaturesData(Prior(state, "homePageFeaturesData"), action);
      var fl := HomePageFeaturesDataLoading(Prior(state, "homePageFeaturesDataLoading"), action);
      Root(state, action) ==
        if state.Null? || d.Undef? || dl.Undef? || f.Undef? || fl.Undef? then None
        else Some(map["homePageData" := d, "homePageDataLoading" := dl,
                      "homePageFeaturesData" := f, "homePageFeaturesDataLoading" := fl])
  {
    Combine4("homePageData", HomePageData(Prior(state, "homePageData"), action),
      "homePageDataLoading", HomePageDataLoading(Prior(state, "homePageDataLoading"), action),
      "homePageFeaturesData", HomePageFeaturesData(Prior(state, "homePageFeaturesData"), action),
      "homePageFeaturesDataLoading", HomePageFeaturesDataLoading(Prior(state, "homePageFeaturesDataLoading"), action));
  }

  /** The combined state fails only on a null prior state or on a response
      that carries no payload (a slice may not become undefined). */
  lemma {:induction false} RootFails(state: Val, action: Action)
    ensures Root(state, action).None? <==>
      (state.Null?
        || (Matches(HomePageDataType, action) && IsResponse(action) && Payload(action).Undef?)
        || (Matches(HomePageFeaturesDataType, action) && IsResponse(action) && Payload(action).Undef?))
  {
    RootCombined(state, action);
    DataSliceStep(HomePageDataType, EmptyObject, Prior(state, "homePageData"), action);
    DataSliceStep(HomePageFeaturesDataType, EmptyObject, Prior(state, "homePageFeaturesData"), action);
    LoadingSliceStep(HomePageDataType, Prior(state, "homePageDataLoading"), action);
    LoadingSliceStep(HomePageFeaturesDataType, Prior(state, "homePageFeaturesDataLoading"), action);
  }

  /** The combined state has exactly the four slices, each the result of its
      own reducer on its prior value. */
  lemma {:induction false} RootSlices(state: Val, action: Action)
    requires Root(state, action).Some?
    ensures var r := Root(state, action).value;
      r.Keys == {"homePageData", "homePageDataLoading", "homePageFeaturesData", "homePageFeaturesDataLoading"}
      && r["homePageData"] == HomePageData(Prior(state, "homePageData"), action)
      && r["homePageDataLoading"] == HomePageDataLoading(Prior(state, "homePageDataLoading"), action)
      && r["homePageFeaturesData"] == HomePageFeaturesData(Prior(state, "homePageFeaturesData"), action)
      && r["homePageFeaturesDataLoading"] == HomePageFeaturesDataLoading(Prior(state, "homePageFeaturesDataLoading"), action)
  {
    RootCombined(state, action);
  }

  /** Before any home-features action both data slices are `{}` and both
      flags false. */
  lemma InitialState(action: Action)
    requires !Matches(HomePageDataType, action) && !Matches(HomePageFeaturesDataType, action)
    ensures Root(Undef, action) == Some(map["homePageData" := EmptyObject, "homePageDataLoading" := Bool(false),
                                            "homePageFeaturesData" := EmptyObject, "homePageFeaturesDataLoading" := Bool(false)])
  {
    assert Prior(Undef, "homePageData") == Undef && Prior(Undef, "homePageDataLoading") == Undef;
    assert Prior(Undef, "homePageFeaturesData") == Undef && Prior(Undef, "homePageFeaturesDataLoading") == Undef;
    DataSliceStep(HomePageDataType, EmptyObject, Undef, action);
    DataSliceStep(HomePageFeaturesDataType, EmptyObject, Undef, action);
    LoadingSliceStep(HomePageDataType, Undef, action);
    LoadingSliceStep(HomePageFeaturesDataType, Undef, action);
    RootCombined(Undef, action);
  }

  /** Each data slice takes the payload only on a response of its own type;
      each flag is true after a foreground request of its own type and false
      after a response of its own type. */
  lemma {:induction false} OwnTypeSteps(state: Val, action: Action)
    ensures HomePageData(state, action) ==
      if Matches(HomePageDataType, action) && IsResponse(action) then Payload(action) else OrDefault(state, EmptyObject)
    ensures HomePageFeaturesData(state, action) ==
      if Matches(HomePageFeaturesDataType, action) && IsResponse(action) then Payload(action) else OrDefault(state, EmptyObject)
    ensures Matches(HomePageDataType, action) && IsForegroundRequest(action) ==> HomePageDataLoading(state, action) == Bool(true)
    ensures Matches(HomePageDataType, action) && IsResponse(action) ==> HomePageDataLoading(state, action) == Bool(false)
    ensures Matches(HomePageFeaturesDataType, action) && IsForegroundRequest(action) ==>
      HomePageFeaturesDataLoading(state, action) == Bool(true)
    ensures Matches(HomePageFeaturesDataType, action) && IsResponse(action) ==>
      HomePageFeaturesDataLoading(state, action) == Bool(false)
  {
    DataSliceStep(HomePageDataType, EmptyObject, state, action);
    DataSliceStep(HomePageFeaturesDataType, EmptyObject, state, action);
    LoadingSliceStep(HomePageDataType, state, action);
    LoadingSliceStep(HomePageFeaturesDataType, state, action);
  }

  /** An action of one type leaves the other type's two slices as they were
      (at their initial values when undefined); a progress action is of
      neither type, so it leaves all four as they were. */
  lemma {:induction false} OtherTypesUntouched(state: Val, action: Action)
    ensures !Matches(HomePageDataType, action) ==>
      HomePageData(state, action) == OrDefault(state, EmptyObject)
      && HomePageDataLoading(state, action) == OrDefault(state, Bool(false))
    ensures !Matches(HomePageFeaturesDataType, action) ==>
      HomePageFeaturesData(state, action) == OrDefault(state, EmptyObject)
      && HomePageFeaturesDataLoading(state, action) == OrDefault(state, Bool(false))
    ensures "type" in action && action["type"] in {Str(HomePageDataProgressType), Str(HomePageFeaturesDataProgressType)} ==>
      !Matches(HomePageDataType, action) && !Matches(HomePageFeaturesDataType, action)
  {
    DataSliceStep(HomePageDataType, EmptyObject, state, action);
    DataSliceStep(HomePageFeaturesDataType, EmptyObject, state, action);
    LoadingSliceStep(HomePageDataType, state, action);
    LoadingSliceStep(HomePageFeaturesDataType, state, action);
    assert |HomePageDataType| != |HomePageDataProgressType| && |HomePageDataType| != |HomePageFeaturesDataProgressType|;
    assert HomePageFeaturesDataType[10] != HomePageDataProgressType[10];
    assert |HomePageFeaturesDataType| != |HomePageFeaturesDataProgressType|;
  }
}
