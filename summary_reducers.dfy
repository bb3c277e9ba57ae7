/** The summary slice of the state: the signed-in user's summary data and
    its loading flag, both driven by `summaryDataAction`. */
module SummaryReducers {
  import opened JsValues
  import opened ActionMeta
  import opened Redux
  import opened DataReducers

  /** The type of `summaryDataAction`, from the summary data-action table. */
  const SummaryDataType: string := ActionType("SUMMARY_DATA")

  /** `summary` */
  function Summary(state: Val, action: Action): Val {
    DataSlice(SummaryDataType, EmptyObject, state, action)
  }

  /** `summaryLoading` */
  function SummaryLoading(state: Val, action: Action): Val {
    LoadingSlice(SummaryDataType, state, action)
  }

  /** The combined summary reducer. */
  function Root(state: Val, action: Action): Option<map<string, Val>> {
    if state.Null? then None
    else Combine([("summary", Summary(Prior(state, "summary"), action)), ("summaryLoading", SummaryLoading(Prior(state, "summaryLoading"), action))])
  }

  /** Before any summary action both slices are at their initial values: the
      data `{}` and the flag false. */
  lemma InitialState(action: Action)
    requires !Matches(SummaryDataType, action)
    ensures Root(Undef, action) == Some(map["summary" := EmptyObject, "summaryLoading" := Bool(false)])
  {
    DataSliceStep(SummaryDataType, EmptyObject, Undef, action);
    LoadingSliceStep(SummaryDataType, Undef, action);
    RootShape(Undef, action);
    var r := Root(Undef, action).value;
    assert r == map["summary" := EmptyObject, "summaryLoading" := Bool(false)];
  }

  /** The data takes the payload of a summary response and nothing else
      changes it; a request leaves it as it was. */
  lemma SummaryStep(state: Val, action: Action)
    ensures Summary(state, action) ==
      if Matches(SummaryDataType, action) && IsResponse(action) then Payload(action) else OrDefault(state, EmptyObject)
    ensures IsDataRequestAction(Obj(action), None) == Some(true) ==> Summary(state, action) == OrDefault(state, EmptyObject)
  {
    DataSliceStep(SummaryDataType, EmptyObject, state, action);
    RequestResponseExclusive(Obj(action), None, None);
  }

  /** The flag goes up on a foreground summary request, down on a summary
      response, and a background request leaves it unchanged. */
  lemma SummaryLoadingStep(state: Val, action: Action)
    ensures Matches(SummaryDataType, action) && IsForegroundRequest(action) ==> SummaryLoading(state, action) == Bool(true)
    ensures Matches(SummaryDataType, action) && IsResponse(action) ==> SummaryLoading(state, action) == Bool(false)
    ensures IsDataRequestAction(Obj(action), None) == Some(true) && IsBackgroundDataRequest(Obj(action)) == Some(true) ==>
      SummaryLoading(state, action) == OrDefault(state, Bool(false))
  {
    LoadingSliceStep(SummaryDataType, state, action);
    RequestResponseExclusive(Obj(action), None, None);
  }

  /** The combined state has exactly the two slices; it fails only when a
      summary response carries no payload (a slice may not become undefined)
      or the prior state is null. */
  lemma RootShape(state: Val, action: Action)
    ensures var r := Root(state, action);
      (r.None? <==> state.Null? || (Matches(SummaryDataType, action) && IsResponse(action) && Payload(action).Undef?))
      && (r.Some? ==>
            r.value.Keys == {"summary", "summaryLoading"}
            && r.value["summary"] == Summary(Prior(state, "summary"), action)
            && r.value["summaryLoading"] == SummaryLoading(Prior(state, "summaryLoading"), action))
  {
    SummaryStep(Prior(state, "summary"), action);
    LoadingSliceStep(SummaryDataType, Prior(state, "summaryLoading"), action);
    Combine2("summary", Summary(Prior(state, "summary"), action), "summaryLoading", SummaryLoading(Prior(state, "summaryLoading"), action));
  }
}
