/** The action helpers of the state layer: the tables fed to `createActions`,
    the action objects the resulting creators build, the data-request and
    data-response tags carried in an action's `meta`, and the predicates that
    read those tags. */
module ActionMeta {
  import opened JsValues

  /** A payload creator of an action-map entry: `identity` or `noPayload`. */
  datatype PayloadCreator = Identity | NoPayload

  /** The meta creator every action-map entry uses: `pickMeta`. */
  datatype MetaCreator = PickMeta

  /** The `[payloadCreator, metaCreator]` pair stored under each type. */
  datatype Entry = Entry(payload: PayloadCreator, meta: MetaCreator)

  function ApplyPayload(c: PayloadCreator, payload: Val): (r: Val)
    ensures c == Identity ==> r == payload
    ensures c == NoPayload ==> r == Undef
  {
    match c
    case Identity => payload
    case NoPayload => Undef
  }

  function ApplyMeta(c: MetaCreator, payload: Val, meta: Val): (r: Val)
    ensures r == meta
  {
    match c
    case PickMeta => meta
  }

  /** The action type a table entry is stored under: `${type}_ACTION`. */
  function ActionType(t: string): string {
    t + "_ACTION"
  }

  lemma ActionTypeInjective(a: string, b: string)
    requires ActionType(a) == ActionType(b)
    ensures a == b
  {
    assert a == ActionType(a)[..|a|];
    assert b == ActionType(b)[..|b|];
  }

  /** The `reduce` shared by the three `createActionMapFor*` helpers: one
      assignment `map[`${type}_ACTION`] = entry` per type, left to right. */
  function ActionMapFor(types: seq<string>, entry: Entry): (m: map<string, Entry>)
    ensures m.Keys == set t | t in types :: ActionType(t)
    ensures forall k :: k in m ==> m[k] == entry
    decreases |types|
  {
    if types == [] then map[]
    else
      var init := types[..|types| - 1];
      assert types == init + [types[|types| - 1]];
      ActionMapFor(init, entry)[ActionType(types[|types| - 1]) := entry]
  }

  /** `createActionMapForData`: every type gets `[identity, pickMeta]`. */
  function CreateActionMapForData(types: seq<string>): (m: map<string, Entry>)
    ensures forall t :: t in types ==> ActionType(t) in m && m[ActionType(t)] == Entry(Identity, PickMeta)
    ensures forall k :: k in m ==> exists t :: t in types && k == ActionType(t)
  {
    ActionMapFor(types, Entry(Identity, PickMeta))
  }

  /** `createActionMapForMetaNoPayload`: every type gets `[noPayload, pickMeta]`. */
  function CreateActionMapForMetaNoPayload(types: seq<string>): (m: map<string, Entry>)
    ensures forall t :: t in types ==> ActionType(t) in m && m[ActionType(t)] == Entry(NoPayload, PickMeta)
    ensures forall k :: k in m ==> exists t :: t in types && k == ActionType(t)
  {
    ActionMapFor(types, Entry(NoPayload, PickMeta))
  }

  /** `createActionMapForPayloadWithMeta`: the same table as for data actions. */
  function CreateActionMapForPayloadWithMeta(types: seq<string>): (m: map<string, Entry>)
    ensures forall t :: t in types ==> ActionType(t) in m && m[ActionType(t)] == Entry(Identity, PickMeta)
    ensures forall k :: k in m ==> exists t :: t in types && k == ActionType(t)
  {
    ActionMapFor(types, Entry(Identity, PickMeta))
  }

  /** A dispatched action: a plain object. */
  type Action = map<string, Val>

  /** What the creator `createActions` makes from a table entry returns for
      `(payload, meta)`: the type, the payload only when it is not undefined,
      and the meta. */
  function MakeAction(actionType: string, entry: Entry, payload: Val, meta: Val): (a: Action)
    ensures "type" in a && a["type"] == Str(actionType)
    ensures "payload" in a <==> ApplyPayload(entry.payload, payload) != Undef
    ensures "payload" in a ==> a["payload"] == ApplyPayload(entry.payload, payload)
    ensures "meta" in a && a["meta"] == meta
    ensures a.Keys <= {"type", "payload", "meta"}
  {
    var p := ApplyPayload(entry.payload, payload);
    (map["type" := Str(actionType)] + (if p.Undef? then map[] else map["payload" := p]))["meta" := ApplyMeta(entry.meta, payload, meta)]
  }

  /** A data action: `xxxDataAction(payload, meta)` for a type of a data table. */
  function DataAction(actionType: string, payload: Val, meta: Val): Action {
    MakeAction(actionType, Entry(Identity, PickMeta), payload, meta)
  }

  /** An identity action (the plain type names passed to `createActions`):
      the payload and no meta. */
  function IdentityAction(actionType: string, payload: Val): (a: Action)
    ensures "type" in a && a["type"] == Str(actionType)
    ensures "meta" !in a
    ensures "payload" in a <==> payload != Undef
  {
    map["type" := Str(actionType)] + (if payload.Undef? then map[] else map["payload" := payload])
  }

  /** `action.payload` of a dispatched action. */
  function Payload(a: Action): Val {
    if "payload" in a then a["payload"] else Undef
  }

  const DataRequestType: string := "data_request"
  const DataResponseType: string := "data_response"

  /** `dataRequestMeta` */
  const DataRequestMeta: Val := Obj(map["type" := Str(DataRequestType)])
  /** `dataResponseMeta` */
  const DataResponseMeta: Val := Obj(map["type" := Str(DataResponseType)])

  /** `action?.meta?.type` */
  function MetaType(action: Val): Val {
    OptProp(OptProp(action, "meta"), "type")
  }

  /** The body shared by `isDataRequestAction` and `isDataResponseAction`. A
      filter is an action creator, represented by the type its `toString()`
      returns; None is the TypeError of reading `action.type` when a filter is
      given and the action is null or undefined. */
  function HasTag(action: Val, filter: Option<string>, tag: string): (r: Option<bool>)
    ensures r.None? <==> filter.Some? && Nullish(action)
    ensures r == Some(true) <==>
      (filter.None? || Prop(action, "type") == Some(Str(filter.value))) && MetaType(action) == Str(tag)
  {
    if filter.Some? && Nullish(action) then None
    else if filter.Some? && Prop(action, "type") != Some(Str(filter.value)) then Some(false)
    else Some(MetaType(action) == Str(tag))
  }

  function IsDataRequestAction(action: Val, filter: Option<string>): (r: Option<bool>)
    ensures r.None? <==> filter.Some? && Nullish(action)
    ensures r == Some(true) <==>
      (filter.None? || Prop(action, "type") == Some(Str(filter.value))) && MetaType(action) == Str(DataRequestType)
  {
    HasTag(action, filter, DataRequestType)
  }

  function IsDataResponseAction(action: Val, filter: Option<string>): (r: Option<bool>)
    ensures r.None? <==> filter.Some? && Nullish(action)
    ensures r == Some(true) <==>
      (filter.None? || Prop(action, "type") == Some(Str(filter.value))) && MetaType(action) == Str(DataResponseType)
  {
    HasTag(action, filter, DataResponseType)
  }

  /** No action is both a data request and a data response, whatever the filters. */
  lemma RequestResponseExclusive(action: Val, f: Option<string>, g: Option<string>)
    ensures !(IsDataRequestAction(action, f) == Some(true) && IsDataResponseAction(action, g) == Some(true))
  {
  }

  /** The meta of `makeDataRequestMeta` / `makeDataResponseMeta`: the caller's
      fields with `type` forced, or the shared constant without a meta. */
  function ForceType(meta: Val, tag: string): (r: Val)
    ensures r.Obj? && "type" in r.props && r.props["type"] == Str(tag)
    ensures Truthy(meta) ==> forall k :: k in Spread(meta) && k != "type" ==> k in r.props && r.props[k] == Spread(meta)[k]
    ensures forall k :: k in r.props && k != "type" ==> Truthy(meta) && k in Spread(meta)
    ensures !Truthy(meta) ==> r == Obj(map["type" := Str(tag)])
  {
    if Truthy(meta) then Obj(Spread(meta)["type" := Str(tag)]) else Obj(map["type" := Str(tag)])
  }

  function MakeDataRequestMeta(meta: Val): (r: Val)
    ensures r.Obj? && "type" in r.props && r.props["type"] == Str(DataRequestType)
    ensures Truthy(meta) ==> forall k :: k in Spread(meta) && k != "type" ==> k in r.props && r.props[k] == Spread(meta)[k]
    ensures forall k :: k in r.props && k != "type" ==> Truthy(meta) && k in Spread(meta)
    ensures !Truthy(meta) ==> r == DataRequestMeta
  {
    ForceType(meta, DataRequestType)
  }

  function MakeDataResponseMeta(meta: Val): (r: Val)
    ensures r.Obj? && "type" in r.props && r.props["type"] == Str(DataResponseType)
    ensures Truthy(meta) ==> forall k :: k in Spread(meta) && k != "type" ==> k in r.props && r.props[k] == Spread(meta)[k]
    ensures forall k :: k in r.props && k != "type" ==> Truthy(meta) && k in Spread(meta)
    ensures !Truthy(meta) ==> r == DataResponseMeta
  {
    ForceType(meta, DataResponseType)
  }

  /** `makeErrorDataResponseMeta`: response type and `error: true` always,
      over whatever the caller's meta says; the caller's other fields kept. */
  function MakeErrorDataResponseMeta(meta: Val): (r: Val)
    ensures r.Obj? && "type" in r.props && r.props["type"] == Str(DataResponseType)
    ensures "error" in r.props && r.props["error"] == Bool(true)
    ensures Truthy(meta) ==> forall k :: k in Spread(meta) && k != "type" && k != "error" ==> k in r.props && r.props[k] == Spread(meta)[k]
    ensures forall k :: k in r.props && k != "type" && k != "error" ==> Truthy(meta) && k in Spread(meta)
  {
    var base := if Truthy(meta) then Spread(meta) else map[];
    Obj(base["type" := Str(DataResponseType)]["error" := Bool(true)])
  }

  /** `makeBackgroundDataRequestMeta`: with a meta, its fields plus the request
      type and `background: true`; without one, the plain request constant. */
  function MakeBackgroundDataRequestMeta(meta: Val): (r: Val)
    ensures r.Obj? && "type" in r.props && r.props["type"] == Str(DataRequestType)
    ensures Truthy(meta) ==> "background" in r.props && r.props["background"] == Bool(true)
    ensures Truthy(meta) ==> forall k :: k in Spread(meta) && k != "type" && k != "background" ==> k in r.props && r.props[k] == Spread(meta)[k]
    ensures !Truthy(meta) ==> r == DataRequestMeta
  {
    if Truthy(meta) then Obj(Spread(meta)["type" := Str(DataRequestType)]["background" := Bool(true)])
    else DataRequestMeta
  }

  /** `isBackgroundDataRequest(action = {})`. None is the TypeError of reading
      `meta` from a null action (the default applies only to undefined). */
  function IsBackgroundDataRequest(action: Val): (r: Option<bool>)
    ensures r.None? <==> action.Null?
    ensures r == Some(true) <==> !Nullish(action) && Truthy(OptProp(OptProp(action, "meta"), "background"))
  {
    var a := if action.Undef? then EmptyObject else action;
    match Prop(a, "meta")
    case None => None
    case Some(m) => Some(Truthy(OptProp(m, "background")))
  }

  /** An action tagged by `makeDataRequestMeta` is a data request, and is not
      a data response. */
  lemma {:induction false} RequestMetaTags(action: Val, meta: Val)
    requires Prop(action, "meta") == Some(MakeDataRequestMeta(meta))
    ensures IsDataRequestAction(action, None) == Some(true)
    ensures IsDataResponseAction(action, None) == Some(false)
  {
    assert MetaType(action) == Str(DataRequestType);
  }

  /** An action tagged by `makeDataResponseMeta` or `makeErrorDataResponseMeta`
      is a data response and not a data request. */
  lemma {:induction false} ResponseMetaTags(action: Val, meta: Val, error: bool)
    requires Prop(action, "meta") == Some(if error then MakeErrorDataResponseMeta(meta) else MakeDataResponseMeta(meta))
    ensures IsDataResponseAction(action, None) == Some(true)
    ensures IsDataRequestAction(action, None) == Some(false)
  {
    assert MetaType(action) == Str(DataResponseType);
  }

  /** A background request meta built without a meta is not a background
      request; built from a meta it is. Either way it is a data request. */
  lemma {:induction false} BackgroundOnlyWithMeta(action: Val, meta: Val)
    requires Prop(action, "meta") == Some(MakeBackgroundDataRequestMeta(meta))
    ensures IsBackgroundDataRequest(action) == Some(Truthy(meta))
    ensures IsDataRequestAction(action, None) == Some(true)
  {
    var m := MakeBackgroundDataRequestMeta(meta);
    assert OptProp(action, "meta") == m;
    if !Truthy(meta) {
      assert OptProp(m, "background") == Undef;
    }
    assert MetaType(action) == Str(DataRequestType);
  }
}
