/** What the sagas ask of the world, made explicit: every request sent,
    every action dispatched, every snackbar opened and every local-storage
    call is appended to an effect log, and local storage is a map. What the
    network answers and which storage keys fail are inputs. */
module SagaRuntime {
  import opened JsValues
  import opened ActionMeta

  /** One effect, in the order the saga yields it. */
  datatype Effect =
    | Send(options: Val)                     // the request handed to axios
    | Dispatch(action: Action)               // `put(action)`
    | Snackbar(content: Val)                 // `put(openSnackbar(content))`
    | StorageWrite(key: string, value: Val)  // `writeToLocalStorage(key, value)`
    | StorageRead(key: string)               // `readFromLocalStorage(key)`

  /** How a saga step ends: with a value, or by throwing an error no one
      catches (the saga dies). */
  datatype Ending<T> = Finished(value: T) | Crashed(error: Val)

  /** A settled promise: its value, or the error it rejects with. */
  datatype Settled = Returned(value: Val) | Threw(error: Val)

  /** The error thrown by a property read or a call on null or undefined. */
  const TypeError: Val := Obj(map["name" := Str("TypeError")])

  /** The error `decodeURIComponent` throws on a malformed escape. */
  const UriError: Val := Obj(map["name" := Str("URIError")])

  /** The saga middleware as the sagas see it: the log of effects so far,
      the contents of local storage, and the keys whose storage calls throw. */
  class Runtime {
    var effects: seq<Effect>
    var storage: map<string, Val>
    const failing: set<string>

    constructor(storage: map<string, Val>, failing: set<string>)
      ensures this.effects == [] && this.storage == storage && this.failing == failing
    {
      this.effects := [];
      this.storage := storage;
      this.failing := failing;
    }

    method SendRequest(options: Val)
      modifies this
      ensures effects == old(effects) + [Send(options)] && storage == old(storage)
    {
      effects := effects + [Send(options)];
    }

    method Put(action: Action)
      modifies this
      ensures effects == old(effects) + [Dispatch(action)] && storage == old(storage)
    {
      effects := effects + [Dispatch(action)];
    }

    method OpenSnackbar(content: Val)
      modifies this
      ensures effects == old(effects) + [Snackbar(content)] && storage == old(storage)
    {
      effects := effects + [Snackbar(content)];
    }

    /** `writeToLocalStorage(key, value)`: stores the value, or throws (ok is
        false) when the key's storage call fails. */
    method Write(key: string, value: Val) returns (ok: bool)
      modifies this
      ensures ok <==> key !in failing
      ensures effects == old(effects) + [StorageWrite(key, value)]
      ensures storage == if ok then old(storage)[key := value] else old(storage)
    {
      effects := effects + [StorageWrite(key, value)];
      ok := key !in failing;
      if ok {
        storage := storage[key := value];
      }
    }

    /** `readFromLocalStorage(key)`: the stored value, null for a missing
        key, or None when the call throws. */
    method Read(key: string) returns (r: Option<Val>)
      modifies this
      ensures r == StoredValue(storage, failing, key)
      ensures effects == old(effects) + [StorageRead(key)] && storage == old(storage)
    {
      effects := effects + [StorageRead(key)];
      r := StoredValue(storage, failing, key);
    }
  }

  /** What reading a key yields: `getItem` answers null for a missing key. */
  function StoredValue(storage: map<string, Val>, failing: set<string>, key: string): (r: Option<Val>)
    ensures r.None? <==> key in failing
    ensures r.Some? && key in storage ==> r.value == storage[key]
    ensures r.Some? && key !in storage ==> r.value == Null
  {
    if key in failing then None
    else if key in storage then Some(storage[key])
    else Some(Null)
  }
}
