/** The ui slice of the state: the snackbar's content and whether it is
    open, driven by `openSnackbar` and `closeSnackbar`. The action types of
    those two creators are parameters (their table is not part of this
    model). */
module UiReducers {
  import opened JsValues
  import opened ActionMeta
  import opened Redux

  /** The types of `openSnackbar` and `closeSnackbar`. */
  datatype SnackbarTypes = SnackbarTypes(open: string, close: string)

  const InitialSnackbarContent: Val := Obj(map["text" := Str(""), "error" := Bool(false)])

  function ShowPayload(state: Val, action: Action): Val { Payload(action) }
  function ResetContent(state: Val, action: Action): Val { InitialSnackbarContent }
  function Opened(state: Val, action: Action): Val { Bool(true) }
  function Closed(state: Val, action: Action): Val { Bool(false) }

  function ContentHandlers(types: SnackbarTypes): seq<Handler> {
    [Handler(types.open, ShowPayload), Handler(types.close, ResetContent)]
  }

  function OpenHandlers(types: SnackbarTypes): seq<Handler> {
    [Handler(types.open, Opened), Handler(types.close, Closed)]
  }

  /** `snackbarContent`: the payload on open, the initial content on close. */
  function SnackbarContent(types: SnackbarTypes, state: Val, action: Action): Val {
    HandleActions(ContentHandlers(types), InitialSnackbarContent, state, action)
  }

  /** `isSnackbarOpen`: true on open, false on close. */
  function IsSnackbarOpen(types: SnackbarTypes, state: Val, action: Action): Val {
    HandleActions(OpenHandlers(types), Bool(false), state, action)
  }

  /** The combined ui reducer. */
  function Root(types: SnackbarTypes, state: Val, action: Action): Option<map<string, Val>> {
    if state.Null? then None
    else Combine([("isSnackbarOpen", IsSnackbarOpen(types, Prior(state, "isSnackbarOpen"), action)),
                  ("snackbarContent", SnackbarContent(types, Prior(state, "snackbarContent"), action))])
  }

  /** What each slice becomes: opening sets the flag to true and the content
      to the payload, or to the initial content when the payload is undefined
      (the close handler that follows resets an undefined state to its
      default), whatever the prior state; closing resets the content and
      clears the flag (and wins when both creators share a type); any other
      action keeps both (their initial values when undefined). */
  lemma {:induction false} Steps(types: SnackbarTypes, state: Val, action: Action)
    ensures Matches(types.open, action) && !Matches(types.close, action) ==>
      SnackbarContent(types, state, action) == (if Payload(action).Undef? then InitialSnackbarContent else Payload(action))
      && IsSnackbarOpen(types, state, action) == Bool(true)
    ensures Matches(types.close, action) ==>
      SnackbarContent(types, state, action) == InitialSnackbarContent && IsSnackbarOpen(types, state, action) == Bool(false)
    ensures !Matches(types.open, action) && !Matches(types.close, action) ==>
      SnackbarContent(types, state, action) == OrDefault(state, InitialSnackbarContent)
      && IsSnackbarOpen(types, state, action) == OrDefault(state, Bool(false))
  {
    var content, open := ContentHandlers(types), OpenHandlers(types);
    assert content[1..] == [content[1]];
    assert open[1..] == [open[1]];
    var c0 := OrDefault(state, InitialSnackbarContent);
    var c1 := if Matches(types.open, action) then Payload(action) else c0;
    assert SnackbarContent(types, state, action) == RunHandlers([content[1]], InitialSnackbarContent, c1, action);
    assert RunHandlers([content[1]], InitialSnackbarContent, c1, action) ==
      if Matches(types.close, action) then InitialSnackbarContent else OrDefault(c1, InitialSnackbarContent);
    var o0 := OrDefault(state, Bool(false));
    var o1 := if Matches(types.open, action) then Bool(true) else o0;
    assert IsSnackbarOpen(types, state, action) == RunHandlers([open[1]], Bool(false), o1, action);
    assert RunHandlers([open[1]], Bool(false), o1, action) == if Matches(types.close, action) then Bool(false) else o1;
  }

  /** Applying the same action twice is the same as applying it once; in
      particular closing twice is closing once. */
  lemma {:induction false} Idempotent(types: SnackbarTypes, state: Val, action: Action)
    ensures var c := SnackbarContent(types, state, action); SnackbarContent(types, c, action) == c
    ensures var o := IsSnackbarOpen(types, state, action); IsSnackbarOpen(types, o, action) == o
  {
    Steps(types, state, action);
    Steps(types, SnackbarContent(types, state, action), action);
    Steps(types, IsSnackbarOpen(types, state, action), action);
  }

  /** The initial state is closed with empty, non-error content. */
  lemma {:induction false} InitialState(types: SnackbarTypes, action: Action)
    requires !Matches(types.open, action) && !Matches(types.close, action)
    ensures Root(types, Undef, action) == Some(map["isSnackbarOpen" := Bool(false), "snackbarContent" := InitialSnackbarContent])
  {
    assert Prior(Undef, "isSnackbarOpen") == Undef && Prior(Undef, "snackbarContent") == Undef;
    Steps(types, Undef, action);
    Combine2("isSnackbarOpen", Bool(false), "snackbarContent", InitialSnackbarContent);
  }

  /** Neither slice is ever undefined, so the combined reducer fails only
      when the prior state is null. */
  lemma {:induction false} RootDefined(types: SnackbarTypes, state: Val, action: Action)
    ensures Root(types, state, action).Some? <==> !state.Null?
  {
    var o := IsSnackbarOpen(types, Prior(state, "isSnackbarOpen"), action);
    var c := SnackbarContent(types, Prior(state, "snackbarContent"), action);
    Steps(types, Prior(state, "isSnackbarOpen"), action);
    Steps(types, Prior(state, "snackbarContent"), action);
    Combine2("isSnackbarOpen", o, "snackbarContent", c);
  }
}
