/** The two reducer combinators the state layer is written with:
    `handleActions` from redux-actions (a reducer per action type, applied in
    the order of the map's keys, with a default for an undefined state) and
    `combineReducers` from redux (one slice per key, and an error when a slice
    reducer returns undefined). */
module Redux {
  import opened JsValues
  import opened ActionMeta

  /** One entry of a `handleActions` map: its computed key and its reducer. */
  datatype Handler = Handler(key: string, reduce: (Val, Action) -> Val)

  /** `handleAction` runs its reducer only for an action whose type is truthy
      and prints as the key. */
  predicate Matches(key: string, action: Action) {
    "type" in action && Truthy(action["type"]) && ToJsString(action["type"]) == key
  }

  /** The state a reducer starts from: `state = defaultState`. */
  function OrDefault(state: Val, defaultState: Val): Val {
    if state.Undef? then defaultState else state
  }

  /** The handlers applied one after another, each to the previous result.
      `handleActions` wraps every handler in `handleAction`, whose
      `state = defaultState` turns an undefined state back into the default
      before that handler looks at the action, whether or not it matches. */
  function RunHandlers(handlers: seq<Handler>, defaultState: Val, state: Val, action: Action): (r: Val)
    ensures (forall i :: 0 <= i < |handlers| ==> !Matches(handlers[i].key, action)) ==>
      r == if handlers == [] then state else OrDefault(state, defaultState)
    decreases |handlers|
  {
    if handlers == [] then state
    else
      var s := OrDefault(state, defaultState);
      var h := handlers[0];
      RunHandlers(handlers[1..], defaultState, if Matches(h.key, action) then h.reduce(s, action) else s, action)
  }

  /** `handleActions(handlers, defaultState)(state, action)`. */
  function HandleActions(handlers: seq<Handler>, defaultState: Val, state: Val, action: Action): Val {
    RunHandlers(handlers, defaultState, OrDefault(state, defaultState), action)
  }

  /** When exactly one handler matches, the result is that handler's reducer
      applied to the state (its default when undefined); an undefined result
      becomes the default again when a later handler follows. */
  lemma {:induction false} RunHandlersOne(handlers: seq<Handler>, j: nat, defaultState: Val, state: Val, action: Action)
    requires j < |handlers| && Matches(handlers[j].key, action)
    requires forall i :: 0 <= i < |handlers| && i != j ==> !Matches(handlers[i].key, action)
    ensures var out := handlers[j].reduce(OrDefault(state, defaultState), action);
      RunHandlers(handlers, defaultState, state, action) ==
        if j == |handlers| - 1 then out else OrDefault(out, defaultState)
    decreases |handlers|
  {
    var rest := handlers[1..];
    if j == 0 {
      assert forall i :: 0 <= i < |rest| ==> !Matches(rest[i].key, action) by {
        forall i | 0 <= i < |rest| ensures !Matches(rest[i].key, action) {
          assert rest[i] == handlers[i + 1];
        }
      }
    } else {
      assert !Matches(handlers[0].key, action);
      forall i | 0 <= i < |rest| && i != j - 1 ensures !Matches(rest[i].key, action) {
        assert rest[i] == handlers[i + 1];
      }
      RunHandlersOne(rest, j - 1, defaultState, OrDefault(state, defaultState), action);
    }
  }

  predicate DistinctNames(slices: seq<(string, Val)>) {
    forall i, j :: 0 <= i < j < |slices| ==> slices[i].0 != slices[j].0
  }

  /** The slices `combineReducers` assembles, each already computed by its
      own reducer from its prior value: None is the error thrown when a slice
      reducer returns undefined. */
  function Combine(slices: seq<(string, Val)>): (r: Option<map<string, Val>>)
    ensures r.Some? <==> forall i :: 0 <= i < |slices| ==> !slices[i].1.Undef?
    ensures r.Some? ==> r.value.Keys == set i | 0 <= i < |slices| :: slices[i].0
    ensures r.Some? && DistinctNames(slices) ==> forall i :: 0 <= i < |slices| ==> r.value[slices[i].0] == slices[i].1
    decreases |slices|
  {
    if slices == [] then Some(map[])
    else
      var rest := Combine(slices[1..]);
      assert forall i :: 1 <= i < |slices| ==> slices[i] == slices[1..][i - 1];
      if slices[0].1.Undef? || rest.None? then None
      else
        assert (set i | 0 <= i < |slices| :: slices[i].0)
            == {slices[0].0} + (set i | 0 <= i < |slices[1..]| :: slices[1..][i].0) by {
          forall i | 0 <= i < |slices|
            ensures slices[i].0 in {slices[0].0} + (set i | 0 <= i < |slices[1..]| :: slices[1..][i].0)
          {
            if i > 0 {
              assert slices[1..][i - 1].0 == slices[i].0;
            }
          }
        }
        Some(rest.value[slices[0].0 := slices[0].1])
  }

  /** One slice: the combined state maps its name to it, unless it is
      undefined. */
  lemma Combine1(a: string, x: Val)
    ensures Combine([(a, x)]) == if x.Undef? then None else Some(map[a := x])
  {
    assert [(a, x)][1..] == [];
  }

  /** Two slices under distinct names. */
  lemma Combine2(a: string, x: Val, b: string, y: Val)
    requires a != b
    ensures Combine([(a, x), (b, y)]) == if x.Undef? || y.Undef? then None else Some(map[a := x, b := y])
  {
    assert [(a, x), (b, y)][1..] == [(b, y)];
    Combine1(b, y);
    assert map[b := y][a := x] == map[a := x, b := y];
  }

  /** Three slices under distinct names: the combined state maps each name
      to its slice, unless one of them is undefined. */
  lemma Combine3(a: string, x: Val, b: string, y: Val, c: string, z: Val)
    requires a != b && b != c && a != c
    ensures Combine([(a, x), (b, y), (c, z)]) ==
      if x.Undef? || y.Undef? || z.Undef? then None else Some(map[a := x, b := y, c := z])
  {
    assert [(a, x), (b, y), (c, z)][1..] == [(b, y), (c, z)];
    Combine2(b, y, c, z);
    assert map[b := y, c := z][a := x] == map[a := x, b := y, c := z];
  }

  /** Four slices under distinct names. */
  lemma Combine4(a: string, x: Val, b: string, y: Val, c: string, z: Val, d: string, w: Val)
    requires a != b && a != c && a != d && b != c && b != d && c != d
    ensures Combine([(a, x), (b, y), (c, z), (d, w)]) ==
      if x.Undef? || y.Undef? || z.Undef? || w.Undef? then None
      else Some(map[a := x, b := y, c := z, d := w])
  {
    assert [(a, x), (b, y), (c, z), (d, w)][1..] == [(b, y), (c, z), (d, w)];
    Combine3(b, y, c, z, d, w);
    assert map[b := y, c := z, d := w][a := x] == map[a := x, b := y, c := z, d := w];
  }

  /** The slice a `combineReducers` reducer hands to the reducer of `name`:
      an undefined combined state starts as `{}`. */
  function Prior(state: Val, name: string): Val {
    OptProp(OrDefault(state, EmptyObject), name)
  }
}
