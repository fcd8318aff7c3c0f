/** The REPL front end of compute/impl/repl: its dispatcher (handler.go),
    which answers with a single Result, and its printer (printer.go). */
module ImplRepl {
  import opened Errors
  import opened Text
  import opened Commands
  import opened Queries
  import opened Results
  import opened Streams
  import opened Engine
  import opened Handling

  const PrefixIn: string := "> "
  const PrefixOut: string := "< "

  /** The value SET and DEL answer with on success. */
  const Success: string := "success"

  datatype Handled = Handled(res: Result, store: Store)

  /** What `REPL.Handle` answers and the key space after it. */
  function Dispatch(store: Store, ctx: Context, q: Query): (h: Handled)
    requires HasArgs(q)
    ensures h.res.error.Some? ==> h.res.value == ""
    ensures h.res.error.None? ==> IsKnown(q.cmd) && h.store == Effect(store, ctx, q).store
    ensures h.res.error.None? && q.cmd != MethodGet ==> h.res.value == Success
  {
    if q.cmd == MethodSet then
      var c := EngineSet(store, ctx, q.arguments[0], q.arguments[1]);
      Handled(if c.err.Some? then Failed(c.err.value) else Result(Success, None), c.store)
    else if q.cmd == MethodGet then
      match EngineGet(store, ctx, q.arguments[0])
      case Err(e) => Handled(Failed(e), store)
      case Ok(v) => Handled(Result(FormatV(v), None), store)
    else if q.cmd == MethodDel then
      var c := EngineDel(store, ctx, q.arguments[0]);
      Handled(if c.err.Some? then Failed(c.err.value) else Result(Success, None), c.store)
    else Handled(Failed(UnknownCommand), store)
  }

  /** The dispatcher does what the engine does: its error slot holds the
      engine's error verbatim (with an empty value), or "unknown command"
      for another Method value; the key space is the engine's. */
  lemma DispatchFollowsEngine(store: Store, ctx: Context, q: Query)
    requires HasArgs(q)
    ensures Dispatch(store, ctx, q).store == Effect(store, ctx, q).store
    ensures Dispatch(store, ctx, q).res.error == Effect(store, ctx, q).err
    ensures Dispatch(store, ctx, q).res.error.Some? ==> Dispatch(store, ctx, q).res.value == ""
    ensures !IsKnown(q.cmd) ==> Dispatch(store, ctx, q) == Handled(Failed(UnknownCommand), store)
  {
  }

  /** The success values: "success" for SET and DEL, the stored value for GET. */
  lemma DispatchSuccessValues(store: Store, ctx: Context, key: string, value: string)
    requires key != "" && !ctx.Done()
    ensures Dispatch(store, ctx, Query(MethodSet, [key, value])) == Handled(Result(Success, None), store[key := value])
    ensures key in store ==>
      Dispatch(store, ctx, Query(MethodGet, [key])) == Handled(Result(store[key], None), store)
    ensures key in store ==>
      Dispatch(store, ctx, Query(MethodDel, [key])) == Handled(Result(Success, None), store - {key})
  {
  }

  class Repl {
    var engine: Memory
    var out: Stream

    constructor (engine: Memory, out: Stream)
      ensures this.engine == engine && this.out == out
    {
      this.engine := engine;
      this.out := out;
    }

    /** `REPL.Handle`: one engine call for SET, GET and DEL, none otherwise. */
    method Handle(ctx: Context, q: Query) returns (res: Result)
      requires HasArgs(q)
      modifies engine
      ensures Handled(res, engine.store) == Dispatch(old(engine.store), ctx, q)
      ensures engine.calls == old(engine.calls) + CallsFor(q)
    {
      match q.Command() {
        case MethodSet =>
          var err := engine.Set(ctx, q.Arguments()[0], q.Arguments()[1]);
          if err.Some? {
            return Failed(err.value);
          }
          return Result(Success, None);
        case MethodGet =>
          var v := engine.Get(ctx, q.Arguments()[0]);
          if v.Err? {
            return Failed(v.error);
          }
          return Result(FormatV(v.value), None);
        case MethodDel =>
          var err := engine.Del(ctx, q.Arguments()[0]);
          if err.Some? {
            return Failed(err.value);
          }
          return Result(Success, None);
        case _ =>
      }
      return Failed(UnknownCommand);
    }

    /** `REPL.prompt`: writes exactly `p` and returns the writer's error. */
    method Prompt(p: string) returns (err: Option<Error>)
      modifies out
      ensures out.input == old(out.input) && out.writes == old(out.writes) + 1
      ensures out.outcomes == Tail(old(out.outcomes))
      ensures err == if NextFails(old(out.outcomes)) then Some(WriteFailed) else None
      ensures out.out == if err.Some? then old(out.out) else old(out.out) + p
    {
      err := out.Write(p);
    }

    /** `REPL.Print`: the "< " prompt, then the result's line; when the prompt
        fails its error is returned and the line is not written. */
    method Print(res: Result) returns (err: Option<Error>)
      modifies out
      ensures out.input == old(out.input)
      ensures NextFails(old(out.outcomes)) ==>
        && err == Some(WriteFailed)
        && out.out == old(out.out)
        && out.writes == old(out.writes) + 1
        && out.outcomes == Tail(old(out.outcomes))
      ensures !NextFails(old(out.outcomes)) ==>
        && err == (if NextFails(Tail(old(out.outcomes))) then Some(WriteFailed) else None)
        && out.out == old(out.out) + PrefixOut + (if err.Some? then "" else res.Bytes() + "\n")
        && out.writes == old(out.writes) + 2
        && out.outcomes == Tail(Tail(old(out.outcomes)))
    {
      var perr := Prompt(PrefixOut);
      if perr.Some? {
        return perr;
      }
      err := out.Write(res.Bytes() + "\n");
    }
  }

  /** The prompt's test case: "> " written to a working writer, and to one
      that fails. */
  method PromptExample(engine: Memory) returns (written: string, err: Option<Error>, failedWritten: string, failedErr: Option<Error>)
    ensures written == "> " && err == None
    ensures failedWritten == "" && failedErr == Some(WriteFailed)
  {
    var w := new Stream([], []);
    var r := new Repl(engine, w);
    err := r.Prompt(PrefixIn);
    written := w.out;
    var w2 := new Stream([], [true]);
    var r2 := new Repl(engine, w2);
    failedErr := r2.Prompt(PrefixIn);
    failedWritten := w2.out;
  }

  /** The printer's test case: "output" printed to a working writer, and to
      one whose first write fails. */
  method PrintExample(engine: Memory) returns (written: string, err: Option<Error>, failedWritten: string, failedErr: Option<Error>)
    ensures written == "< RES: output\n" && err == None
    ensures failedWritten == "" && failedErr == Some(WriteFailed)
  {
    var w := new Stream([], []);
    var r := new Repl(engine, w);
    err := r.Print(Result("output", None));
    written := w.out;
    var w2 := new Stream([], [true]);
    var r2 := new Repl(engine, w2);
    failedErr := r2.Print(Result("output", None));
    failedWritten := w2.out;
  }
}
