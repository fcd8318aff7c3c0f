/** The REPL front end of compute/repl: its parser (parser.go), whose guard
    against an empty split cannot fire, and its dispatcher (handler.go), which
    is the network dispatcher's code. */
module ComputeRepl {
  import opened Errors
  import opened Text
  import opened Commands
  import opened Queries
  import opened Results
  import opened Engine
  import opened Handling
  import ImplNetwork

  /** `REPL.Parse`: split on single spaces; the method is the first piece and
      the arguments are the rest. The split never comes back empty, so the
      "invalid query" error is never returned. */
  function Parse(input: string): (r: Outcome<Query>)
    ensures r.Err? ==> r.error in {InvalidCommand, InvalidArguments}
    ensures ParseMethod(Split(input, Space)[0]).Err? ==> r == Err(InvalidCommand)
    ensures ParseMethod(Split(input, Space)[0]).Ok?
      && ArgumentsResult(ParseMethod(Split(input, Space)[0]).value, Split(input, Space)[1..]).Err?
      ==> r == Err(InvalidArguments)
    ensures r.Ok? <==>
      && ParseMethod(Split(input, Space)[0]).Ok?
      && ArgumentsResult(ParseMethod(Split(input, Space)[0]).value, Split(input, Space)[1..]).Ok?
    ensures r.Ok? ==>
      && ParseMethod(Split(input, Space)[0]) == Ok(r.value.cmd)
      && r.value.arguments == Cleared(Split(input, Space)[1..])
    ensures r.Ok? ==> IsKnown(r.value.cmd) && Arity(r.value.cmd) == Some(|r.value.arguments|)
    ensures r.Ok? ==> forall i :: 0 <= i < |r.value.arguments| ==> r.value.arguments[i] != ""
  {
    ParsePieces(Split(input, Space))
  }

  /** The work of `Parse` once the input is split, the guard included. */
  function ParsePieces(parts: seq<string>): (r: Outcome<Query>)
    ensures r == Err(InvalidQuery) <==> parts == []
    ensures r.Err? ==> r.error in {InvalidQuery, InvalidCommand, InvalidArguments}
    ensures |parts| >= 1 && ParseMethod(parts[0]).Err? ==> r == Err(InvalidCommand)
    ensures |parts| >= 1 && ParseMethod(parts[0]).Ok?
      && ArgumentsResult(ParseMethod(parts[0]).value, parts[1..]).Err?
      ==> r == Err(InvalidArguments)
    ensures r.Ok? <==>
      && |parts| >= 1 && ParseMethod(parts[0]).Ok?
      && ArgumentsResult(ParseMethod(parts[0]).value, parts[1..]).Ok?
    ensures r.Ok? ==> ParseMethod(parts[0]) == Ok(r.value.cmd) && r.value.arguments == Cleared(parts[1..])
    ensures r.Ok? ==> IsKnown(r.value.cmd) && Arity(r.value.cmd) == Some(|r.value.arguments|)
    ensures r.Ok? ==> forall i :: 0 <= i < |r.value.arguments| ==> r.value.arguments[i] != ""
  {
    if |parts| == 0 then Err(InvalidQuery)
    else
      match ParseMethod(parts[0])
      case Err(e) => Err(e)
      case Ok(cmd) =>
        match ArgumentsResult(cmd, parts[1..])
        case Err(e) => Err(e)
        case Ok(args) => Ok(New(cmd, args))
  }

  /** With a space in the input both parsers see at least two pieces and
      answer alike. */
  lemma ParsersAgreeWithSpace(input: string)
    requires Space in input
    ensures Parse(input) == ImplNetwork.Parse(input)
  {
    SplitHasTwoPiecesIff(input, Space);
  }

  /** Without a space the network parser reports "invalid query"; this one
      parses the whole input as a method with no arguments, which no method
      accepts: "invalid command" for a bad token, "invalid arguments" for a
      good one. */
  lemma ParsersDifferWithoutSpace(input: string)
    requires Space !in input
    ensures ImplNetwork.Parse(input) == Err(InvalidQuery)
    ensures Parse(input) == if ParseMethod(input).Err? then Err(InvalidCommand) else Err(InvalidArguments)
  {
    SplitWithoutSeparator(input, Space);
    assert Split(input, Space)[1..] == [];
  }

  /** Whenever either parser accepts an input, both return the same query. */
  lemma ParsersAgreeOnSuccess(input: string)
    requires Parse(input).Ok? || ImplNetwork.Parse(input).Ok?
    ensures Parse(input) == ImplNetwork.Parse(input)
  {
    if Space in input {
      ParsersAgreeWithSpace(input);
    } else {
      ParsersDifferWithoutSpace(input);
    }
  }

  /** The inputs too short for the network parser: "" and a lone "GET". */
  lemma ParseShortExamples()
    ensures Parse("") == Err(InvalidCommand)
    ensures Parse("GET") == Err(InvalidArguments)
  {
    ParsersDifferWithoutSpace("");
    assert ToUpper("GET") == "GET";
    ParsersDifferWithoutSpace("GET");
  }

  // The parser's other test cases, through the network parser's.

  lemma ParseSetExample()
    ensures Parse("SET key value") == Ok(Query(MethodSet, ["key", "value"]))
  {
    assert "SET key value"[3] == Space;
    ParsersAgreeWithSpace("SET key value");
    ImplNetwork.ParseSetExample();
  }

  lemma ParseGetExample()
    ensures Parse("GET key") == Ok(Query(MethodGet, ["key"]))
  {
    assert "GET key"[3] == Space;
    ParsersAgreeWithSpace("GET key");
    ImplNetwork.ParseGetExample();
  }

  lemma ParseInvalidExample()
    ensures Parse("INVALID key") == Err(InvalidCommand)
  {
    assert "INVALID key"[7] == Space;
    ParsersAgreeWithSpace("INVALID key");
    ImplNetwork.ParseInvalidExamples();
  }

  lemma ParseMissingArgumentExample()
    ensures Parse("SET key") == Err(InvalidArguments)
  {
    assert "SET key"[3] == Space;
    ParsersAgreeWithSpace("SET key");
    ImplNetwork.ParseMissingArgumentExample();
  }

  lemma ParseExtraArgumentExample()
    ensures Parse("GET key extra") == Err(InvalidArguments)
  {
    assert "GET key extra"[3] == Space;
    ParsersAgreeWithSpace("GET key extra");
    ImplNetwork.ParseExtraArgumentExample();
  }

  class Repl {
    var engine: Memory

    constructor (engine: Memory)
      ensures this.engine == engine
    {
      this.engine := engine;
    }

    /** `REPL.Handle`: the network dispatcher's answers and engine calls. */
    method Handle(ctx: Context, q: Query) returns (res: Result, err: Option<Error>)
      requires HasArgs(q)
      modifies engine
      ensures ImplNetwork.Handled(res, err, engine.store) == ImplNetwork.Dispatch(old(engine.store), ctx, q)
      ensures engine.calls == old(engine.calls) + CallsFor(q)
    {
      match q.Command() {
        case MethodSet =>
          err := engine.Set(ctx, q.Arguments()[0], q.Arguments()[1]);
          if err.Some? {
            return Result("", None), err;
          }
          return Result(ImplNetwork.SavedPrefix + Quote(q.Arguments()[0]), None), err;
        case MethodGet =>
          var v := engine.Get(ctx, q.Arguments()[0]);
          if v.Err? {
            return Result("", None), Some(v.error);
          }
          return Result(ImplNetwork.ValuePrefix + FormatV(v.value), None), None;
        case MethodDel =>
          err := engine.Del(ctx, q.Arguments()[0]);
          if err.Some? {
            return Result("", None), err;
          }
          return Result(ImplNetwork.DeletedPrefix + Quote(q.Arguments()[0]), None), err;
        case _ =>
      }
      return Result("", None), Some(UnknownCommand);
    }
  }
}
