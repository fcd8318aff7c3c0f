/** The request-ID and client-ID helpers of util/context.go. A context is
    nil or holds the values attached to it by key; attaching a value makes a
    new context and leaves the old one as it was. */
module ContextValues {
  import opened Errors

  /** `ctxKeyServiceEntities`: an int-based key type, numbered from 0. */
  datatype Key = EntityKey(index: int)

  const RequestIDKey: Key := EntityKey(0)
  const ClientIDKey: Key := EntityKey(1)

  /** A value stored in a context: a string, or a value of another type
      (such as the int the tests store). */
  datatype Val = StringVal(text: string) | IntVal(number: int)

  /** A `context.Context`: None is nil; otherwise the value visible under each
      key (a later `WithValue` hides an earlier one under the same key). */
  type Ctx = Option<map<Key, Val>>

  /** `context.Background()`. */
  const Background: Ctx := Some(map[])

  /** `context.WithValue(ctx, key, value)`: a derived context in which the key
      holds the value and every other key holds what it held before. */
  function WithValue(ctx: Ctx, key: Key, value: Val): (r: Ctx)
    requires ctx.Some?
    ensures r.Some? && key in r.value && r.value[key] == value
    ensures forall k :: k != key ==> (k in r.value <==> k in ctx.value)
    ensures forall k :: k != key && k in ctx.value ==> r.value[k] == ctx.value[k]
  {
    Some(ctx.value[key := value])
  }

  /** `ctx.Value(key).(string)` with its `ok`: the string under the key, or ""
      when the key is absent or holds a non-string. */
  function StringValue(ctx: Ctx, key: Key): string
    requires ctx.Some?
  {
    if key in ctx.value && ctx.value[key].StringVal? then ctx.value[key].text else ""
  }

  // The shared shape of the two setters and the two getters.

  function SetString(ctx: Ctx, key: Key, s: string): Ctx
  {
    if ctx.None? then None else WithValue(ctx, key, StringVal(s))
  }

  function GetString(ctx: Ctx, key: Key): string
  {
    if ctx.None? then "" else StringValue(ctx, key)
  }

  function SetRequestID(ctx: Ctx, requestID: string): (r: Ctx)
    ensures r.None? <==> ctx.None?
    ensures ctx.Some? ==> r == WithValue(ctx, RequestIDKey, StringVal(requestID))
  {
    SetString(ctx, RequestIDKey, requestID)
  }

  function GetRequestID(ctx: Ctx): (id: string)
    ensures id != "" ==> ctx.Some? && RequestIDKey in ctx.value && ctx.value[RequestIDKey] == StringVal(id)
    ensures ctx.Some? && RequestIDKey in ctx.value && ctx.value[RequestIDKey].StringVal? ==>
      id == ctx.value[RequestIDKey].text
  {
    GetString(ctx, RequestIDKey)
  }

  function SetClientID(ctx: Ctx, clientID: string): (r: Ctx)
    ensures r.None? <==> ctx.None?
    ensures ctx.Some? ==> r == WithValue(ctx, ClientIDKey, StringVal(clientID))
  {
    SetString(ctx, ClientIDKey, clientID)
  }

  function GetClientID(ctx: Ctx): (id: string)
    ensures id != "" ==> ctx.Some? && ClientIDKey in ctx.value && ctx.value[ClientIDKey] == StringVal(id)
    ensures ctx.Some? && ClientIDKey in ctx.value && ctx.value[ClientIDKey].StringVal? ==>
      id == ctx.value[ClientIDKey].text
  {
    GetString(ctx, ClientIDKey)
  }

  // ---------------------------------------------------------------------
  // Properties
  // ---------------------------------------------------------------------

  /** What is set on a non-nil context is what is read back. */
  lemma RequestIDRoundTrip(ctx: Ctx, id: string)
    requires ctx.Some?
    ensures SetRequestID(ctx, id).Some?
    ensures GetRequestID(SetRequestID(ctx, id)) == id
  {
  }

  lemma ClientIDRoundTrip(ctx: Ctx, id: string)
    requires ctx.Some?
    ensures SetClientID(ctx, id).Some?
    ensures GetClientID(SetClientID(ctx, id)) == id
  {
  }

  /** A nil context stays nil when set and reads as "" for both IDs. */
  lemma NilContext(id: string)
    ensures SetRequestID(None, id) == None && SetClientID(None, id) == None
    ensures GetRequestID(None) == "" && GetClientID(None) == ""
  {
  }

  /** A getter answers with text only when the context holds that text as a
      string under its key; an absent key or a non-string value reads as "". */
  lemma GetterReadsOnlyStrings(ctx: Ctx, key: Key)
    ensures GetString(ctx, key) != "" ==>
      ctx.Some? && key in ctx.value && ctx.value[key] == StringVal(GetString(ctx, key))
    ensures ctx.Some? && key !in ctx.value ==> GetString(ctx, key) == ""
    ensures ctx.Some? && key in ctx.value && ctx.value[key].IntVal? ==> GetString(ctx, key) == ""
    ensures ctx.Some? && key in ctx.value && ctx.value[key].StringVal? ==> GetString(ctx, key) == ctx.value[key].text
  {
  }

  /** The two IDs live under different keys: setting one leaves the other as
      it reads. */
  lemma IDsAreIndependent(ctx: Ctx, id: string)
    ensures GetClientID(SetRequestID(ctx, id)) == GetClientID(ctx)
    ensures GetRequestID(SetClientID(ctx, id)) == GetRequestID(ctx)
  {
  }

  /** A setter changes only its key of the derived context; values are
      immutable, so the context passed in is unaffected. */
  lemma SetterChangesOnlyItsKey(ctx: Ctx, key: Key, s: string, other: Key)
    requires ctx.Some? && other != key
    ensures GetString(SetString(ctx, key, s), other) == GetString(ctx, other)
    ensures (other in SetString(ctx, key, s).value) == (other in ctx.value)
  {
  }

  /** The test tables: set on Background, set over an earlier value, a
      non-string value, and nil. */
  lemma ContextExamples()
    ensures GetRequestID(SetRequestID(Background, "12345")) == "12345"
    ensures GetRequestID(SetRequestID(WithValue(Background, RequestIDKey, StringVal("12345")), "12345")) == "12345"
    ensures GetRequestID(SetRequestID(Background, "")) == ""
    ensures GetRequestID(SetRequestID(None, "")) == ""
    ensures GetRequestID(SetRequestID(WithValue(Background, RequestIDKey, IntVal(12345)), "")) == ""
    ensures GetRequestID(WithValue(Background, RequestIDKey, StringVal("12345"))) == "12345"
    ensures GetRequestID(Background) == ""
    ensures GetRequestID(WithValue(Background, RequestIDKey, IntVal(12345))) == ""
    ensures GetClientID(SetClientID(Background, "client123")) == "client123"
    ensures GetClientID(WithValue(Background, ClientIDKey, StringVal("client123"))) == "client123"
    ensures GetClientID(Background) == ""
    ensures GetClientID(None) == ""
    ensures GetClientID(WithValue(Background, ClientIDKey, IntVal(12345))) == ""
  {
  }
}
