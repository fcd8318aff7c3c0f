/** The in-memory storage engine (storage/engine/memory.go): a map from key to
    value that Set and Del update in place, behind a check that the calling
    context is not done. */
module Engine {
  import opened Errors

  /** A `context.Context` as the engine sees it: live, or done for one of the
      two reasons `ctx.Err()` can report. */
  datatype Context = Background | CanceledContext | ExpiredContext
  {
    predicate Done()
    {
      !Background?
    }

    /** `ctx.Err()` of a done context. */
    function Err(): Error
      requires Done()
    {
      if CanceledContext? then Canceled else DeadlineExceeded
    }
  }

  /** The key space. Values are `any` in Go; every caller here stores strings. */
  type Store = map<string, string>

  /** A call of the engine's interface, as the handler tests' mock records it. */
  datatype Call = SetCall(key: string, value: string) | GetCall(key: string) | DelCall(key: string)

  /** The error an updating operation returns and the key space after it. */
  datatype Change = Change(err: Option<Error>, store: Store)

  // The unexported set, get and del: the key logic without the context.

  function StoreSet(store: Store, key: string, value: string): (c: Change)
    ensures c.err.None? <==> key != ""
    ensures c.err.Some? ==> c.err == Some(EmptyKey) && c.store == store
    ensures c.err.None? ==> c.store == store[key := value]
  {
    if key == "" then Change(Some(EmptyKey), store) else Change(None, store[key := value])
  }

  function StoreGet(store: Store, key: string): (r: Outcome<string>)
    ensures r.Ok? <==> key != "" && key in store
    ensures r.Ok? ==> r.value == store[key]
    ensures r.Err? ==> r.error == if key == "" then EmptyKey else NotFound
  {
    if key == "" then Err(EmptyKey)
    else if key !in store then Err(NotFound)
    else Ok(store[key])
  }

  function StoreDel(store: Store, key: string): (c: Change)
    ensures c.err.None? <==> key != "" && key in store
    ensures c.err.Some? ==> c.store == store && c.err == Some(if key == "" then EmptyKey else NotFound)
    ensures c.err.None? ==> c.store == store - {key} && key !in c.store
  {
    if key == "" then Change(Some(EmptyKey), store)
    else if key !in store then Change(Some(NotFound), store)
    else Change(None, store - {key})
  }

  // The exported Set, Get and Del: the context is checked first.

  function EngineSet(store: Store, ctx: Context, key: string, value: string): (c: Change)
    ensures c.err.None? <==> !ctx.Done() && key != ""
    ensures ctx.Done() ==> c.err == Some(ctx.Err())
    ensures c.err.Some? ==> c.store == store
    ensures c.err.None? ==> c.store == store[key := value]
  {
    if ctx.Done() then Change(Some(ctx.Err()), store) else StoreSet(store, key, value)
  }

  function EngineGet(store: Store, ctx: Context, key: string): (r: Outcome<string>)
    ensures r.Ok? <==> !ctx.Done() && key != "" && key in store
    ensures ctx.Done() ==> r == Err(ctx.Err())
    ensures r.Ok? ==> r.value == store[key]
  {
    if ctx.Done() then Err(ctx.Err()) else StoreGet(store, key)
  }

  function EngineDel(store: Store, ctx: Context, key: string): (c: Change)
    ensures c.err.None? <==> !ctx.Done() && key != "" && key in store
    ensures ctx.Done() ==> c.err == Some(ctx.Err())
    ensures c.err.Some? ==> c.store == store
    ensures c.err.None? ==> c.store == store - {key}
  {
    if ctx.Done() then Change(Some(ctx.Err()), store) else StoreDel(store, key)
  }

  /** What `deferredLog` returns, given what its `recover()` call returned:
      Internal when that was a panic value, otherwise the operation's own
      error, nil included. `deferredLog` is called by the deferred closure
      of Set, Get and Del rather than deferred itself, so that `recover()`
      always returns nil and the engine's methods pass `false`: a panic in
      set, get or del is not recovered. */
  function DeferredLog(recovered: bool, err: Option<Error>): (r: Option<Error>)
    ensures !recovered ==> r == err
    ensures recovered ==> r == Some(Internal)
  {
    if recovered then Some(Internal) else err
  }

  // ---------------------------------------------------------------------
  // Properties of the operations
  // ---------------------------------------------------------------------

  /** Set then Get of a non-empty key returns the value set. */
  lemma SetThenGet(store: Store, ctx1: Context, ctx2: Context, key: string, value: string)
    requires key != "" && !ctx1.Done() && !ctx2.Done()
    ensures EngineSet(store, ctx1, key, value).err == None
    ensures EngineGet(EngineSet(store, ctx1, key, value).store, ctx2, key) == Ok(value)
  {
  }

  /** Set overwrites unconditionally and leaves every other key as it was. */
  lemma SetOverwritesOnlyItsKey(store: Store, ctx: Context, key: string, value: string)
    requires key != "" && !ctx.Done()
    ensures EngineSet(store, ctx, key, value).store == store[key := value]
    ensures forall k :: k != key ==>
      EngineGet(EngineSet(store, ctx, key, value).store, ctx, k) == EngineGet(store, ctx, k)
  {
  }

  /** The empty key is refused by all three operations, whatever the store. */
  lemma EmptyKeyRefused(store: Store, ctx: Context, value: string)
    requires !ctx.Done()
    ensures EngineSet(store, ctx, "", value) == Change(Some(EmptyKey), store)
    ensures EngineGet(store, ctx, "") == Err(EmptyKey)
    ensures EngineDel(store, ctx, "") == Change(Some(EmptyKey), store)
  {
  }

  /** Get and Del of an absent key report NotFound and change nothing. */
  lemma AbsentKeyNotFound(store: Store, ctx: Context, key: string)
    requires key != "" && key !in store && !ctx.Done()
    ensures EngineGet(store, ctx, key) == Err(NotFound)
    ensures EngineDel(store, ctx, key) == Change(Some(NotFound), store)
  {
  }

  /** Del removes only its key: a later Get of it reports NotFound. */
  lemma DelThenGet(store: Store, ctx: Context, key: string)
    requires key != "" && key in store && !ctx.Done()
    ensures EngineDel(store, ctx, key) == Change(None, store - {key})
    ensures EngineGet(EngineDel(store, ctx, key).store, ctx, key) == Err(NotFound)
    ensures forall k :: k != key ==>
      EngineGet(EngineDel(store, ctx, key).store, ctx, k) == EngineGet(store, ctx, k)
  {
  }

  /** A done context is reported before any key logic, even for the empty key,
      and the key space is left as it was: a later call with a live context
      sees the old contents. */
  lemma DoneContextFirst(store: Store, ctx: Context, live: Context, key: string, value: string)
    requires ctx.Done() && !live.Done()
    ensures EngineSet(store, ctx, key, value) == Change(Some(ctx.Err()), store)
    ensures EngineGet(store, ctx, key) == Err(ctx.Err())
    ensures EngineDel(store, ctx, key) == Change(Some(ctx.Err()), store)
    ensures EngineGet(EngineSet(store, ctx, key, value).store, live, key) == StoreGet(store, key)
  {
  }

  // ---------------------------------------------------------------------
  // The Memory object
  // ---------------------------------------------------------------------

  class Memory {
    var store: Store
    /** The calls made so far, in order. */
    ghost var calls: seq<Call>

    constructor ()
      ensures store == map[] && calls == []
    {
      store := map[];
      calls := [];
    }

    /** The unexported `set`. */
    method SetKey(key: string, value: string) returns (err: Option<Error>)
      modifies this`store
      ensures Change(err, store) == StoreSet(old(store), key, value)
    {
      if key == "" {
        return Some(EmptyKey);
      }
      store := store[key := value];
      return None;
    }

    /** The unexported `get`. */
    method GetKey(key: string) returns (r: Outcome<string>)
      ensures r == StoreGet(store, key)
    {
      if key == "" {
        return Err(EmptyKey);
      }
      if key !in store {
        return Err(NotFound);
      }
      return Ok(store[key]);
    }

    /** The unexported `del`. */
    method DelKey(key: string) returns (err: Option<Error>)
      modifies this`store
      ensures Change(err, store) == StoreDel(old(store), key)
    {
      if key == "" {
        return Some(EmptyKey);
      }
      if key !in store {
        return Some(NotFound);
      }
      store := store - {key};
      return None;
    }

    method Set(ctx: Context, key: string, value: string) returns (err: Option<Error>)
      modifies this
      ensures Change(err, store) == EngineSet(old(store), ctx, key, value)
      ensures calls == old(calls) + [SetCall(key, value)]
    {
      calls := calls + [SetCall(key, value)];
      if ctx.Done() {
        err := Some(ctx.Err());
      } else {
        err := SetKey(key, value);
      }
      err := DeferredLog(false, err);
    }

    method Get(ctx: Context, key: string) returns (r: Outcome<string>)
      modifies this`calls
      ensures r == EngineGet(store, ctx, key)
      ensures calls == old(calls) + [GetCall(key)]
    {
      calls := calls + [GetCall(key)];
      if ctx.Done() {
        r := Err(ctx.Err());
      } else {
        r := GetKey(key);
      }
      if r.Err? {
        var logged := DeferredLog(false, Some(r.error));
        r := Err(logged.value);
      }
    }

    method Del(ctx: Context, key: string) returns (err: Option<Error>)
      modifies this
      ensures Change(err, store) == EngineDel(old(store), ctx, key)
      ensures calls == old(calls) + [DelCall(key)]
    {
      calls := calls + [DelCall(key)];
      if ctx.Done() {
        err := Some(ctx.Err());
      } else {
        err := DelKey(key);
      }
      err := DeferredLog(false, err);
    }
  }

  /** `NewMemory`: a missing logger or done channel is refused, the logger
      first; otherwise the engine starts with an empty key space. */
  method NewMemory(hasLogger: bool, hasDone: bool) returns (r: Outcome<Memory>)
    ensures !hasLogger ==> r == Err(LoggerRequired)
    ensures hasLogger && !hasDone ==> r == Err(DoneChannelRequired)
    ensures hasLogger && hasDone ==> r.Ok? && fresh(r.value) && r.value.store == map[] && r.value.calls == []
  {
    if !hasLogger {
      return Err(LoggerRequired);
    }
    if !hasDone {
      return Err(DoneChannelRequired);
    }
    var m := new Memory();
    return Ok(m);
  }
}
