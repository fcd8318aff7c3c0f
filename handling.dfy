/** What the three dispatchers (compute/impl/repl/handler.go,
    compute/impl/network/handler.go, compute/repl/handler.go) have in common:
    which engine call a query makes and what that call does. */
module Handling {
  import opened Errors
  import opened Commands
  import opened Queries
  import opened Engine

  /** The dispatchers index `Arguments()[0]`, and `Arguments()[1]` for SET. */
  predicate HasArgs(q: Query)
  {
    && (q.cmd == MethodSet ==> |q.arguments| >= 2)
    && (q.cmd == MethodGet || q.cmd == MethodDel ==> |q.arguments| >= 1)
  }

  /** A query of the method's exact arity can be dispatched. */
  lemma ArityGivesArgs(q: Query)
    requires Arity(q.cmd) == Some(|q.arguments|)
    ensures HasArgs(q)
  {
  }

  /** The engine calls a query leads to: exactly one for SET, GET and DEL,
      none for any other Method value. */
  function CallsFor(q: Query): seq<Call>
    requires HasArgs(q)
  {
    if q.cmd == MethodSet then [SetCall(q.arguments[0], q.arguments[1])]
    else if q.cmd == MethodGet then [GetCall(q.arguments[0])]
    else if q.cmd == MethodDel then [DelCall(q.arguments[0])]
    else []
  }

  /** The error a dispatcher reports for a query and the key space after it:
      the engine call's own, or "unknown command" with nothing changed. */
  function Effect(store: Store, ctx: Context, q: Query): Change
    requires HasArgs(q)
  {
    if q.cmd == MethodSet then EngineSet(store, ctx, q.arguments[0], q.arguments[1])
    else if q.cmd == MethodGet then
      match EngineGet(store, ctx, q.arguments[0])
      case Err(e) => Change(Some(e), store)
      case Ok(_) => Change(None, store)
    else if q.cmd == MethodDel then EngineDel(store, ctx, q.arguments[0])
    else Change(Some(UnknownCommand), store)
  }
}
