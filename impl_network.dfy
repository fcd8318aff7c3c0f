/** The TCP front end of compute/impl/network: the parser (parser.go), the
    dispatcher (handler.go), the printer (printer.go) and the request loop
    of one connection (`handleClient` in server.go). */
module ImplNetwork {
  import opened Errors
  import opened Text
  import opened Commands
  import opened Queries
  import opened Results
  import opened Streams
  import opened Engine
  import opened Handling

  // ---------------------------------------------------------------------
  // Parse
  // ---------------------------------------------------------------------

  /** `Network.Parse`: split on single spaces; fewer than two pieces is
      "invalid query"; then the method and the arguments are parsed and their
      errors returned unchanged. */
  function Parse(input: string): (r: Outcome<Query>)
    ensures r == Err(InvalidQuery) <==> Space !in input
    ensures r.Err? ==> r.error in {InvalidQuery, InvalidCommand, InvalidArguments}
    ensures Space in input && ParseMethod(Split(input, Space)[0]).Err? ==> r == Err(InvalidCommand)
    ensures Space in input && ParseMethod(Split(input, Space)[0]).Ok?
      && ArgumentsResult(ParseMethod(Split(input, Space)[0]).value, Split(input, Space)[1..]).Err?
      ==> r == Err(InvalidArguments)
    ensures r.Ok? <==>
      && Space in input && ParseMethod(Split(input, Space)[0]).Ok?
      && ArgumentsResult(ParseMethod(Split(input, Space)[0]).value, Split(input, Space)[1..]).Ok?
    ensures r.Ok? ==>
      && ParseMethod(Split(input, Space)[0]) == Ok(r.value.cmd)
      && r.value.arguments == Cleared(Split(input, Space)[1..])
    ensures r.Ok? ==> IsKnown(r.value.cmd) && Arity(r.value.cmd) == Some(|r.value.arguments|)
    ensures r.Ok? ==> forall i :: 0 <= i < |r.value.arguments| ==> r.value.arguments[i] != ""
  {
    SplitHasTwoPiecesIff(input, Space);
    ParsePieces(Split(input, Space))
  }

  /** The work of `Parse` once the input is split. */
  function ParsePieces(parts: seq<string>): (r: Outcome<Query>)
    ensures r == Err(InvalidQuery) <==> |parts| < 2
    ensures r.Err? ==> r.error in {InvalidQuery, InvalidCommand, InvalidArguments}
    ensures |parts| >= 2 && ParseMethod(parts[0]).Err? ==> r == Err(InvalidCommand)
    ensures |parts| >= 2 && ParseMethod(parts[0]).Ok?
      && ArgumentsResult(ParseMethod(parts[0]).value, parts[1..]).Err?
      ==> r == Err(InvalidArguments)
    ensures r.Ok? <==>
      && |parts| >= 2 && ParseMethod(parts[0]).Ok?
      && ArgumentsResult(ParseMethod(parts[0]).value, parts[1..]).Ok?
    ensures r.Ok? ==> ParseMethod(parts[0]) == Ok(r.value.cmd) && r.value.arguments == Cleared(parts[1..])
    ensures r.Ok? ==> IsKnown(r.value.cmd) && Arity(r.value.cmd) == Some(|r.value.arguments|)
    ensures r.Ok? ==> forall i :: 0 <= i < |r.value.arguments| ==> r.value.arguments[i] != ""
  {
    if |parts| < 2 then Err(InvalidQuery)
    else
      match ParseMethod(parts[0])
      case Err(e) => Err(e)
      case Ok(cmd) =>
        match ArgumentsResult(cmd, parts[1..])
        case Err(e) => Err(e)
        case Ok(args) => Ok(New(cmd, args))
  }

  /** The pieces after the first matter only once cleared of empty strings. */
  lemma ParsePiecesCleared(p: seq<string>, q: seq<string>)
    requires |p| >= 2 && |q| >= 2 && p[0] == q[0] && Cleared(p[1..]) == Cleared(q[1..])
    ensures ParsePieces(p) == ParsePieces(q)
  {
  }

  /** A parsed query can be dispatched. */
  lemma ParsedHasArgs(input: string)
    requires Parse(input).Ok?
    ensures HasArgs(Parse(input).value)
  {
    ArityGivesArgs(Parse(input).value);
  }

  /** A method token that does not contain a space: whatever upper-cases to a
      method's name. */
  lemma MethodTokenHasNoSpace(token: string, m: Method)
    requires IsKnown(m) && ToUpper(token) == MethodString(m)
    ensures Space !in token
  {
    forall i | 0 <= i < |token|
      ensures token[i] != Space
    {
      assert ToUpper(token)[i] == UpperChar(token[i]);
    }
  }

  /** The parse of a rendered query gives it back: a method token (in any
      case), a space, and the method's exact number of non-empty, space-free
      arguments joined by single spaces. */
  lemma ParseRendered(token: string, m: Method, args: seq<string>)
    requires IsKnown(m) && ToUpper(token) == MethodString(m)
    requires Arity(m) == Some(|args|)
    requires forall i :: 0 <= i < |args| ==> args[i] != "" && Space !in args[i]
    ensures Parse(token + [Space] + Join(args, Space)) == Ok(Query(m, args))
  {
    MethodTokenHasNoSpace(token, m);
    SplitAtSeparator(token, Join(args, Space), Space);
    SplitWithoutSeparator(token, Space);
    SplitJoin(args, Space);
    var parts := Split(token + [Space] + Join(args, Space), Space);
    assert parts == [token] + args;
    assert parts[1..] == args;
    ParseMethodComplete(token, m);
    ClearedKeepsNonEmpty(args);
  }

  /** A run of spaces separates like a single one: the extra empty pieces
      are dropped with the other empty arguments. */
  lemma DoubledSpace(a: string, b: string)
    ensures Parse(a + [Space] + b) == Parse(a + [Space, Space] + b)
  {
    var pa, pb := Split(a, Space), Split(b, Space);
    var one := Split(a + [Space] + b, Space);
    var two := Split(a + [Space, Space] + b, Space);
    assert one == pa + pb by {
      SplitAtSeparator(a, b, Space);
    }
    assert two == pa + ([[]] + pb) by {
      SplitAtDoubledSeparator(a, b, Space);
    }
    ClearedDropsEmptyPiece(pa, pb);
    ParsePiecesCleared(one, two);
  }

  /** Space-free tokens joined by single spaces are split back into them. */
  lemma ParseTokens(tokens: seq<string>)
    requires |tokens| >= 1 && forall i :: 0 <= i < |tokens| ==> Space !in tokens[i]
    ensures Parse(Join(tokens, Space)) == ParsePieces(tokens)
  {
    SplitJoin(tokens, Space);
  }

  // The parser's test cases, one lemma each.

  lemma ParseSetExample()
    ensures Parse("SET key value") == Ok(Query(MethodSet, ["key", "value"]))
  {
    assert ToUpper("SET") == "SET";
    assert "SET key value" == "SET" + [Space] + Join(["key", "value"], Space);
    ParseRendered("SET", MethodSet, ["key", "value"]);
  }

  lemma ParseGetExample()
    ensures Parse("GET key") == Ok(Query(MethodGet, ["key"]))
  {
    assert ToUpper("GET") == "GET";
    assert "GET key" == "GET" + [Space] + Join(["key"], Space);
    ParseRendered("GET", MethodGet, ["key"]);
  }

  lemma ParseInvalidExamples()
    ensures Parse("INVALID key") == Err(InvalidCommand)
    ensures Parse("") == Err(InvalidQuery)
  {
    assert Join(["INVALID", "key"], Space) == "INVALID key";
    ParseTokens(["INVALID", "key"]);
  }

  lemma ParseMissingArgumentExample()
    ensures Parse("SET key") == Err(InvalidArguments)
  {
    assert ToUpper("SET") == "SET";
    assert Join(["SET", "key"], Space) == "SET key";
    ParseTokens(["SET", "key"]);
  }

  lemma ParseExtraArgumentExample()
    ensures Parse("GET key extra") == Err(InvalidArguments)
  {
    assert Join(["GET", "key", "extra"], Space) == "GET key extra";
    ParseTokens(["GET", "key", "extra"]);
    ExtraArgumentPieces();
  }

  lemma ExtraArgumentPieces()
    ensures ParsePieces(["GET", "key", "extra"]) == Err(InvalidArguments)
  {
    assert ToUpper("GET") == "GET";
    ClearedKeepsNonEmpty(["key", "extra"]);
  }

  /** A trailing space leaves an empty piece, which is cleared away. */
  lemma ParseTrailingSpaceExample()
    ensures Parse("GET k ") == Ok(Query(MethodGet, ["k"]))
  {
    assert ToUpper("GET") == "GET";
    assert Join(["GET", "k", ""], Space) == "GET k ";
    ParseTokens(["GET", "k", ""]);
    var tail: seq<string> := ["k", ""];
    assert tail[1..] == [""];
    assert Cleared(tail) == ["k"];
  }

  /** A leading space makes the method piece empty: "invalid command". */
  lemma ParseLeadingSpaceExample()
    ensures Parse(" SET a b") == Err(InvalidCommand)
  {
    assert " SET a b" == "" + [Space] + "SET a b";
    SplitAtSeparator("", "SET a b", Space);
    assert Split(" SET a b", Space)[0] == "";
  }

  // ---------------------------------------------------------------------
  // Handle
  // ---------------------------------------------------------------------

  /** What `Network.Handle` returns: a Result, the error beside it, and the
      key space after the engine call. */
  datatype Handled = Handled(res: Result, err: Option<Error>, store: Store)

  const SavedPrefix: string := "saved key "
  const ValuePrefix: string := "value: "
  const DeletedPrefix: string := "deleted key "

  function Dispatch(store: Store, ctx: Context, q: Query): (h: Handled)
    requires HasArgs(q)
    ensures h.res.error == None
    ensures h.err.Some? ==> h.res.value == "" && h.store == store
    ensures h.err.None? ==> IsKnown(q.cmd) && h.res.value != ""
  {
    if q.cmd == MethodSet then
      var c := EngineSet(store, ctx, q.arguments[0], q.arguments[1]);
      if c.err.Some? then Handled(Result("", None), c.err, c.store)
      else Handled(Result(SavedPrefix + Quote(q.arguments[0]), None), None, c.store)
    else if q.cmd == MethodGet then
      match EngineGet(store, ctx, q.arguments[0])
      case Err(e) => Handled(Result("", None), Some(e), store)
      case Ok(v) => Handled(Result(ValuePrefix + FormatV(v), None), None, store)
    else if q.cmd == MethodDel then
      var c := EngineDel(store, ctx, q.arguments[0]);
      if c.err.Some? then Handled(Result("", None), c.err, c.store)
      else Handled(Result(DeletedPrefix + Quote(q.arguments[0]), None), None, c.store)
    else Handled(Result("", None), Some(UnknownCommand), store)
  }

  /** The dispatcher returns the engine's error as its second result, with
      an empty Result beside it; the Result's own error slot is never set. */
  lemma DispatchFollowsEngine(store: Store, ctx: Context, q: Query)
    requires HasArgs(q)
    ensures Dispatch(store, ctx, q).store == Effect(store, ctx, q).store
    ensures Dispatch(store, ctx, q).err == Effect(store, ctx, q).err
    ensures Dispatch(store, ctx, q).res.error == None
    ensures Dispatch(store, ctx, q).err.Some? ==> Dispatch(store, ctx, q).res.value == ""
    ensures !IsKnown(q.cmd) ==> Dispatch(store, ctx, q) == Handled(Result("", None), Some(UnknownCommand), store)
  {
  }

  /** The success messages name the key, quoted so that it can be read back,
      or carry the value found. */
  lemma DispatchSuccessValues(store: Store, ctx: Context, key: string, value: string)
    requires key != "" && !ctx.Done()
    ensures var h := Dispatch(store, ctx, Query(MethodSet, [key, value]));
      && h.err == None && h.store == store[key := value]
      && h.res.value[..|SavedPrefix|] == SavedPrefix
      && Unquote(h.res.value[|SavedPrefix|..]) == Some(key)
    ensures key in store ==>
      Dispatch(store, ctx, Query(MethodGet, [key])) == Handled(Result(ValuePrefix + store[key], None), None, store)
    ensures key in store ==>
      var h := Dispatch(store, ctx, Query(MethodDel, [key]));
      && h.err == None && h.store == store - {key}
      && h.res.value[..|DeletedPrefix|] == DeletedPrefix
      && Unquote(h.res.value[|DeletedPrefix|..]) == Some(key)
  {
    UnquoteQuote(key);
    var s := SavedPrefix + Quote(key);
    assert s[..|SavedPrefix|] == SavedPrefix && s[|SavedPrefix|..] == Quote(key);
    var d := DeletedPrefix + Quote(key);
    assert d[..|DeletedPrefix|] == DeletedPrefix && d[|DeletedPrefix|..] == Quote(key);
  }

  /** The (Result, error) pair as the request loop uses it: the error goes
      into the Result's error slot. */
  function Fold(h: Handled): (r: Result)
    ensures r.error == if h.err.Some? then h.err else h.res.error
    ensures r.value == h.res.value
  {
    if h.err.Some? then Result(h.res.value, h.err) else h.res
  }

  // ---------------------------------------------------------------------
  // The request loop
  // ---------------------------------------------------------------------

  /** The size of the read buffer; a read that fills it ends the connection. */
  const BufferSize: nat := 1024

  /** The Result sent back for one request and the key space after it. */
  datatype Reply = Reply(res: Result, store: Store)

  /** One request: a parse error is sent back as a plain value, so it is
      tagged "RES: "; otherwise the dispatcher's answer, its error folded in. */
  function Answer(store: Store, ctx: Context, text: string): (a: Reply)
    ensures Parse(text).Err? ==> a.store == store && a.res == Result(Message(Parse(text).error), None)
    ensures a.res.error.Some? ==> Parse(text).Ok? && a.res.value == "" && a.store == store
  {
    match Parse(text)
    case Err(e) => Reply(Result(Message(e), None), store)
    case Ok(q) =>
      ParsedHasArgs(text);
      var h := Dispatch(store, ctx, q);
      Reply(Fold(h), h.store)
  }

  /** A parse error leaves the key space alone; a parsed query is
      answered with the engine's error, if any, and leaves the engine's key
      space; under a done context that error is the context's. */
  lemma AnswerFollowsEngine(store: Store, ctx: Context, text: string)
    ensures Parse(text).Err? ==> Answer(store, ctx, text) == Reply(Result(Message(Parse(text).error), None), store)
    ensures Parse(text).Ok? ==>
      && HasArgs(Parse(text).value)
      && Answer(store, ctx, text).res.error == Effect(store, ctx, Parse(text).value).err
      && Answer(store, ctx, text).store == Effect(store, ctx, Parse(text).value).store
    ensures Parse(text).Ok? && ctx.Done() ==> Answer(store, ctx, text) == Reply(Result("", Some(ctx.Err())), store)
  {
    if Parse(text).Ok? {
      ParsedHasArgs(text);
      DispatchFollowsEngine(store, ctx, Parse(text).value);
    }
  }

  /** The lines a connection receives and the key space it leaves: reads
      are served in order until the peer is gone, a read reports EOF, a read
      fills the buffer, or a write fails. */
  datatype Session = Session(lines: seq<string>, store: Store)

  /** Whether the request loop stops at this read without answering it. */
  predicate Stops(events: seq<ReadEvent>)
  {
    events == [] || events[0].err == EOF || |events[0].data| >= BufferSize
  }

  function Serve(events: seq<ReadEvent>, outcomes: seq<bool>, store: Store, ctx: Context): (s: Session)
    ensures |s.lines| <= |events|
    ensures Stops(events) ==> s == Session([], store)
    decreases |events|
  {
    if Stops(events) then Session([], store)
    else
      var a := Answer(store, ctx, events[0].data);
      if NextFails(outcomes) then Session([], a.store)
      else
        var rest := Serve(events[1..], Tail(outcomes), a.store, ctx);
        Session([a.res.Bytes() + "\n"] + rest.lines, rest.store)
  }

  function Concat(lines: seq<string>): string
  {
    if lines == [] then "" else lines[0] + Concat(lines[1..])
  }

  lemma ConcatCons(line: string, lines: seq<string>)
    ensures Concat([line] + lines) == line + Concat(lines)
  {
    assert ([line] + lines)[1..] == lines;
  }

  // Sequence displays with one element put in front.

  lemma SeqCons0<T>(a: T)
    ensures [a] + [] == [a]
  {
  }

  lemma SeqCons1<T>(a: T, b: T)
    ensures [a] + [b] == [a, b]
  {
  }

  lemma SeqCons2<T>(a: T, b: T, c: T)
    ensures [a] + [b, c] == [a, b, c]
  {
  }

  /** What is already written, followed by more lines. */
  lemma WrittenThenRest(o: string, written: seq<string>, rest: seq<string>)
    ensures o + Concat(written) + Concat(rest) == o + Concat(written + rest)
  {
    ConcatAppend(written, rest);
    AppendAssoc(o, Concat(written), Concat(rest));
  }

  lemma OneLine(line: string)
    ensures Concat([line]) == line
  {
    ConcatCons(line, []);
    SeqCons0(line);
  }

  lemma SeqCons3<T>(a: T, b: T, c: T, d: T)
    ensures [a] + [b, c, d] == [a, b, c, d]
  {
  }

  lemma AppendAssoc<T>(a: seq<T>, b: seq<T>, c: seq<T>)
    ensures (a + b) + c == a + (b + c)
  {
  }

  lemma {:induction false} ConcatAppend(a: seq<string>, b: seq<string>)
    ensures Concat(a + b) == Concat(a) + Concat(b)
  {
    if a == [] {
      assert a + b == b;
    } else {
      ConcatAppend(a[1..], b);
      assert (a + b)[0] == a[0] && (a + b)[1..] == a[1..] + b;
      AppendAssoc(a[0], Concat(a[1..]), Concat(b));
    }
  }

  // ---------------------------------------------------------------------
  // Properties of the request loop
  // ---------------------------------------------------------------------

  /** The loop stops on EOF, even with bytes beside it, and on a read that
      fills the buffer; nothing is answered and nothing changes. */
  lemma ServeStops(ev: ReadEvent, events: seq<ReadEvent>, outcomes: seq<bool>, store: Store, ctx: Context)
    requires ev.err == EOF || |ev.data| >= BufferSize
    ensures Serve([ev] + events, outcomes, store, ctx) == Session([], store)
  {
  }

  /** A failed write ends the connection: nothing more is read or answered,
      though the request's own engine call has taken place. */
  lemma ServeStopsOnWriteFailure(events: seq<ReadEvent>, outcomes: seq<bool>, store: Store, ctx: Context)
    requires !Stops(events) && NextFails(outcomes)
    ensures Serve(events, outcomes, store, ctx) == Session([], Answer(store, ctx, events[0].data).store)
  {
  }

  /** Each line answers one read, in order: line i answers read i, which
      is neither EOF nor full, and the write of line i succeeded. */
  lemma {:induction false} ServeAnswersReads(events: seq<ReadEvent>, outcomes: seq<bool>, store: Store, ctx: Context)
    ensures |Serve(events, outcomes, store, ctx).lines| <= |events|
    ensures forall i :: 0 <= i < |Serve(events, outcomes, store, ctx).lines| ==>
      && events[i].err != EOF && |events[i].data| < BufferSize
      && (i < |outcomes| ==> !outcomes[i])
    decreases |events|
  {
    if !Stops(events) && !NextFails(outcomes) {
      var a := Answer(store, ctx, events[0].data);
      var rest := Serve(events[1..], Tail(outcomes), a.store, ctx);
      ServeAnswersReads(events[1..], Tail(outcomes), a.store, ctx);
      var s := Serve(events, outcomes, store, ctx);
      assert s.lines == [a.res.Bytes() + "\n"] + rest.lines;
      forall i | 1 <= i < |s.lines|
        ensures events[i].err != EOF && |events[i].data| < BufferSize
        ensures i < |outcomes| ==> !outcomes[i]
      {
        assert i - 1 < |rest.lines|;
        assert events[1..][i - 1] == events[i];
        assert i < |outcomes| ==> Tail(outcomes)[i - 1] == outcomes[i];
      }
    }
  }

  /** A line as `Network.Print` writes it: a tag, then a newline at the end. */
  predicate TaggedLine(line: string)
  {
    && |line| >= 6 && line[|line| - 1] == '\n'
    && (line[..5] == ResTag || line[..5] == ErrTag)
  }

  lemma PrintedLineTagged(r: Result)
    ensures TaggedLine(r.Bytes() + "\n")
  {
    BytesTagged(r);
    var line := r.Bytes() + "\n";
    assert line[..5] == r.Bytes()[..5];
  }

  /** Every line is one tagged Result and a newline. */
  lemma {:induction false} ServeLinesTagged(events: seq<ReadEvent>, outcomes: seq<bool>, store: Store, ctx: Context)
    ensures forall i :: 0 <= i < |Serve(events, outcomes, store, ctx).lines| ==>
      TaggedLine(Serve(events, outcomes, store, ctx).lines[i])
    decreases |events|
  {
    if !Stops(events) && !NextFails(outcomes) {
      var a := Answer(store, ctx, events[0].data);
      var rest := Serve(events[1..], Tail(outcomes), a.store, ctx);
      ServeLinesTagged(events[1..], Tail(outcomes), a.store, ctx);
      PrintedLineTagged(a.res);
      var s := Serve(events, outcomes, store, ctx);
      assert s.lines == [a.res.Bytes() + "\n"] + rest.lines;
      forall i | 0 <= i < |s.lines|
        ensures TaggedLine(s.lines[i])
      {
        if i > 0 {
          assert s.lines[i] == rest.lines[i - 1];
        }
      }
    }
  }

  /** A request that does not parse is answered "RES: " and the parse
      error's message. */
  lemma ServeParseErrorLines(events: seq<ReadEvent>, outcomes: seq<bool>, store: Store, ctx: Context)
    ensures |Serve(events, outcomes, store, ctx).lines| <= |events|
    ensures forall i :: 0 <= i < |Serve(events, outcomes, store, ctx).lines| ==>
      Parse(events[i].data).Err? ==>
        Serve(events, outcomes, store, ctx).lines[i] == ResTag + Message(Parse(events[i].data).error) + "\n"
  {
    var s := Serve(events, outcomes, store, ctx);
    forall i | 0 <= i < |s.lines| && Parse(events[i].data).Err?
      ensures s.lines[i] == ResTag + Message(Parse(events[i].data).error) + "\n"
    {
      ServeParseErrorLine(events, outcomes, store, ctx, i);
    }
  }

  /** Line i, when request i does not parse. */
  lemma {:induction false} ServeParseErrorLine(events: seq<ReadEvent>, outcomes: seq<bool>, store: Store, ctx: Context, i: nat)
    requires i < |Serve(events, outcomes, store, ctx).lines|
    requires Parse(events[i].data).Err?
    ensures Serve(events, outcomes, store, ctx).lines[i] == ResTag + Message(Parse(events[i].data).error) + "\n"
    decreases i
  {
    if i == 0 {
      ServeParseErrorHead(events, outcomes, store, ctx);
    } else {
      var a := Answer(store, ctx, events[0].data);
      ServeShift(events, outcomes, store, ctx, i, a.res, a.store);
      ServeParseErrorLine(events[1..], Tail(outcomes), a.store, ctx, i - 1);
    }
  }

  /** Line 0, when request 0 does not parse. */
  lemma ServeParseErrorHead(events: seq<ReadEvent>, outcomes: seq<bool>, store: Store, ctx: Context)
    requires 0 < |Serve(events, outcomes, store, ctx).lines|
    requires Parse(events[0].data).Err?
    ensures Serve(events, outcomes, store, ctx).lines[0] == ResTag + Message(Parse(events[0].data).error) + "\n"
  {
    ServeHead(events, outcomes, store, ctx);
    ParseErrorAnswered(store, ctx, events[0].data);
  }

  /** The first line answers the first read. */
  lemma ServeHead(events: seq<ReadEvent>, outcomes: seq<bool>, store: Store, ctx: Context)
    requires 0 < |Serve(events, outcomes, store, ctx).lines|
    ensures Serve(events, outcomes, store, ctx).lines[0] == Answer(store, ctx, events[0].data).res.Bytes() + "\n"
  {
    var a := Answer(store, ctx, events[0].data);
    ServeStep(events, outcomes, store, ctx, a.res, a.store);
  }

  /** Line i of a session is line i - 1 of the session after its first read. */
  lemma ServeShift(events: seq<ReadEvent>, outcomes: seq<bool>, store: Store, ctx: Context, i: nat, r: Result, after: Store)
    requires 0 < i < |Serve(events, outcomes, store, ctx).lines|
    requires Answer(store, ctx, events[0].data) == Reply(r, after)
    ensures i < |events| && events[1..][i - 1] == events[i]
    ensures i - 1 < |Serve(events[1..], Tail(outcomes), after, ctx).lines|
    ensures Serve(events, outcomes, store, ctx).lines[i] == Serve(events[1..], Tail(outcomes), after, ctx).lines[i - 1]
  {
    ServeStep(events, outcomes, store, ctx, r, after);
    var rest := Serve(events[1..], Tail(outcomes), after, ctx);
    assert Serve(events, outcomes, store, ctx).lines == [r.Bytes() + "\n"] + rest.lines;
  }

  /** A request that does not parse is answered with the RES tag and the
      parse error's text. */
  lemma ParseErrorAnswered(store: Store, ctx: Context, text: string)
    requires Parse(text).Err?
    ensures Answer(store, ctx, text).res.Bytes() + "\n" == ResTag + Message(Parse(text).error) + "\n"
  {
  }

  /** Under a done context every request that parses is answered "ERR: "
      and the context's error. */
  lemma {:induction false} ServeDoneLines(events: seq<ReadEvent>, outcomes: seq<bool>, store: Store, ctx: Context)
    requires ctx.Done()
    ensures |Serve(events, outcomes, store, ctx).lines| <= |events|
    ensures forall i :: 0 <= i < |Serve(events, outcomes, store, ctx).lines| ==>
      Parse(events[i].data).Ok? ==>
        Serve(events, outcomes, store, ctx).lines[i] == ErrTag + Message(ctx.Err()) + "\n"
    decreases |events|
  {
    if !Stops(events) && !NextFails(outcomes) {
      var a := Answer(store, ctx, events[0].data);
      ServeStep(events, outcomes, store, ctx, a.res, a.store);
      ServeDoneLines(events[1..], Tail(outcomes), a.store, ctx);
      var rest := Serve(events[1..], Tail(outcomes), a.store, ctx);
      var s := Serve(events, outcomes, store, ctx);
      assert s.lines == [a.res.Bytes() + "\n"] + rest.lines;
      forall i | 0 <= i < |s.lines| && Parse(events[i].data).Ok?
        ensures s.lines[i] == ErrTag + Message(ctx.Err()) + "\n"
      {
        if i == 0 {
          DoneAnswered(store, ctx, events[0].data);
        } else {
          assert events[1..][i - 1] == events[i] && s.lines[i] == rest.lines[i - 1];
        }
      }
    }
  }

  /** Under a done context a parsed request is answered with the context's
      error. */
  lemma DoneAnswered(store: Store, ctx: Context, text: string)
    requires ctx.Done() && Parse(text).Ok?
    ensures Answer(store, ctx, text).res.Bytes() + "\n" == ErrTag + Message(ctx.Err()) + "\n"
  {
    AnswerFollowsEngine(store, ctx, text);
  }

  /** Under a done context the key space is never changed. */
  lemma {:induction false} ServeDoneKeepsStore(events: seq<ReadEvent>, outcomes: seq<bool>, store: Store, ctx: Context)
    requires ctx.Done()
    ensures Serve(events, outcomes, store, ctx).store == store
    decreases |events|
  {
    if !Stops(events) {
      AnswerFollowsEngine(store, ctx, events[0].data);
      if !NextFails(outcomes) {
        ServeDoneKeepsStore(events[1..], Tail(outcomes), store, ctx);
      }
    }
  }

  /** Only EOF ends the loop: a read that fails otherwise is still parsed
      and answered. */
  lemma ServeAnswersFailedRead(data: string, events: seq<ReadEvent>, store: Store, ctx: Context)
    requires Space !in data && |data| < BufferSize
    ensures Serve([ReadEvent(data, ReadFailed)] + events, [], store, ctx).lines[0] == "RES: invalid query\n"
  {
    var all := [ReadEvent(data, ReadFailed)] + events;
    assert all[0].data == data && !Stops(all);
    ServeFirstLine(all, store, ctx);
    ParseErrorAnswered(store, ctx, data);
    InvalidQueryLine();
  }

  /** The line that answers a request without a space. */
  lemma InvalidQueryLine()
    ensures ResTag + Message(InvalidQuery) + "\n" == "RES: invalid query\n"
  {
  }

  /** The first line of a session answers its first read. */
  lemma ServeFirstLine(events: seq<ReadEvent>, store: Store, ctx: Context)
    requires !Stops(events)
    ensures |Serve(events, [], store, ctx).lines| >= 1
    ensures Serve(events, [], store, ctx).lines[0] == Answer(store, ctx, events[0].data).res.Bytes() + "\n"
  {
    var a := Answer(store, ctx, events[0].data);
    ServeStep(events, [], store, ctx, a.res, a.store);
  }

  /** One iteration of the loop: a read that is answered stops the loop if
      the write fails, and otherwise puts its line ahead of the rest. */
  lemma ServeStep(events: seq<ReadEvent>, outcomes: seq<bool>, store: Store, ctx: Context, r: Result, after: Store)
    requires !Stops(events)
    requires Answer(store, ctx, events[0].data) == Reply(r, after)
    ensures NextFails(outcomes) ==> Serve(events, outcomes, store, ctx) == Session([], after)
    ensures !NextFails(outcomes) ==>
      var rest := Serve(events[1..], Tail(outcomes), after, ctx);
      Serve(events, outcomes, store, ctx) == Session([r.Bytes() + "\n"] + rest.lines, rest.store)
  {
  }

  /** A read that is served contributes its answer's line ahead of the rest. */
  lemma ServeOne(ev: ReadEvent, events: seq<ReadEvent>, store: Store, ctx: Context, r: Result, after: Store)
    requires ev.err != EOF && |ev.data| < BufferSize
    requires Answer(store, ctx, ev.data) == Reply(r, after)
    ensures Serve([ev] + events, [], store, ctx)
      == Session([r.Bytes() + "\n"] + Serve(events, [], after, ctx).lines, Serve(events, [], after, ctx).store)
  {
    ServeStep([ev] + events, [], store, ctx, r, after);
    assert ([ev] + events)[1..] == events;
  }

  // A request and its answer under a live context, one lemma per method.

  lemma AnswerSet(store: Store, ctx: Context, text: string, key: string, value: string)
    requires !ctx.Done() && key != "" && Parse(text) == Ok(Query(MethodSet, [key, value]))
    ensures Answer(store, ctx, text) == Reply(Result(SavedPrefix + Quote(key), None), store[key := value])
  {
  }

  lemma AnswerGet(store: Store, ctx: Context, text: string, key: string)
    requires !ctx.Done() && key != "" && Parse(text) == Ok(Query(MethodGet, [key]))
    ensures key in store ==> Answer(store, ctx, text) == Reply(Result(ValuePrefix + store[key], None), store)
    ensures key !in store ==> Answer(store, ctx, text) == Reply(Result("", Some(NotFound)), store)
  {
  }

  lemma AnswerDel(store: Store, ctx: Context, text: string, key: string)
    requires !ctx.Done() && key != "" && Parse(text) == Ok(Query(MethodDel, [key]))
    ensures key in store ==> Answer(store, ctx, text) == Reply(Result(DeletedPrefix + Quote(key), None), store - {key})
    ensures key !in store ==> Answer(store, ctx, text) == Reply(Result("", Some(NotFound)), store)
  {
  }

  /** A SET request as the peer types it. */
  lemma ParseSetRequest(key: string, value: string)
    requires key != "" && value != "" && Space !in key && Space !in value
    ensures Parse("SET " + key + " " + value) == Ok(Query(MethodSet, [key, value]))
  {
    assert ToUpper("SET") == "SET";
    assert "SET " + key + " " + value == "SET" + [Space] + Join([key, value], Space);
    ParseRendered("SET", MethodSet, [key, value]);
  }

  /** A GET request as the peer types it. */
  lemma ParseGetRequest(key: string)
    requires key != "" && Space !in key
    ensures Parse("GET " + key) == Ok(Query(MethodGet, [key]))
  {
    assert ToUpper("GET") == "GET";
    assert "GET " + key == "GET" + [Space] + Join([key], Space);
    ParseRendered("GET", MethodGet, [key]);
  }

  /** A DEL request as the peer types it. */
  lemma ParseDelRequest(key: string)
    requires key != "" && Space !in key
    ensures Parse("DEL " + key) == Ok(Query(MethodDel, [key]))
  {
    assert ToUpper("DEL") == "DEL";
    assert "DEL " + key == "DEL" + [Space] + Join([key], Space);
    ParseRendered("DEL", MethodDel, [key]);
  }

  /** A session: SET, GET, DEL and GET of one key, then the peer hangs up.
      The store ends without the key and the last GET reports NotFound. */
  lemma ServeScenario(store: Store, ctx: Context, key: string, value: string)
    requires !ctx.Done() && key != "" && value != "" && Space !in key && Space !in value
    requires |key| + |value| < 1000
    ensures Serve([ReadEvent("SET " + key + " " + value, NoReadError), ReadEvent("GET " + key, NoReadError),
                   ReadEvent("DEL " + key, NoReadError), ReadEvent("GET " + key, NoReadError)], [], store, ctx)
      == Session([ResTag + SavedPrefix + Quote(key) + "\n", ResTag + ValuePrefix + value + "\n",
                  ResTag + DeletedPrefix + Quote(key) + "\n", ErrTag + "not found\n"],
                 store - {key})
  {
    ParseSetRequest(key, value);
    ParseGetRequest(key);
    ParseDelRequest(key);
    ServeSession(store, ctx, key, value, "SET " + key + " " + value, "GET " + key, "DEL " + key);
    SessionLines(key, value);
  }

  /** The lines of that session. */
  lemma SessionLines(key: string, value: string)
    ensures Result(SavedPrefix + Quote(key), None).Bytes() + "\n" == ResTag + SavedPrefix + Quote(key) + "\n"
    ensures Result(ValuePrefix + value, None).Bytes() + "\n" == ResTag + ValuePrefix + value + "\n"
    ensures Result(DeletedPrefix + Quote(key), None).Bytes() + "\n" == ResTag + DeletedPrefix + Quote(key) + "\n"
    ensures Result("", Some(NotFound)).Bytes() + "\n" == ErrTag + "not found\n"
  {
    AppendAssoc(ResTag, SavedPrefix, Quote(key));
    AppendAssoc(ResTag, ValuePrefix, value);
    AppendAssoc(ResTag, DeletedPrefix, Quote(key));
    AppendAssoc(ErrTag, "not found", "\n");
    assert Message(NotFound) == "not found";
  }

  /** The second half of the session: DEL, then GET, of a stored key. */
  lemma ServeDelThenGet(store: Store, ctx: Context, key: string, get_: string, del_: string)
    requires !ctx.Done() && key != "" && key in store
    requires |get_| < BufferSize && |del_| < BufferSize
    requires Parse(get_) == Ok(Query(MethodGet, [key]))
    requires Parse(del_) == Ok(Query(MethodDel, [key]))
    ensures Serve([ReadEvent(del_, NoReadError), ReadEvent(get_, NoReadError)], [], store, ctx)
      == Session([Result(DeletedPrefix + Quote(key), None).Bytes() + "\n", Result("", Some(NotFound)).Bytes() + "\n"],
                 store - {key})
  {
    var s2 := store - {key};
    AnswerDel(store, ctx, del_, key);
    AnswerGet(s2, ctx, get_, key);
    var e3, e4 := ReadEvent(del_, NoReadError), ReadEvent(get_, NoReadError);
    ServeOne(e4, [], s2, ctx, Result("", Some(NotFound)), s2);
    SeqCons0(e4);
    ServeOne(e3, [e4], store, ctx, Result(DeletedPrefix + Quote(key), None), s2);
    SeqCons1(e3, e4);
  }

  /** After the SET: GET, DEL and GET of the stored key. */
  lemma ServeGetDelGet(store: Store, ctx: Context, key: string, get_: string, del_: string)
    requires !ctx.Done() && key != "" && key in store
    requires |get_| < BufferSize && |del_| < BufferSize
    requires Parse(get_) == Ok(Query(MethodGet, [key]))
    requires Parse(del_) == Ok(Query(MethodDel, [key]))
    ensures Serve([ReadEvent(get_, NoReadError), ReadEvent(del_, NoReadError), ReadEvent(get_, NoReadError)], [], store, ctx)
      == Session([Result(ValuePrefix + store[key], None).Bytes() + "\n",
                  Result(DeletedPrefix + Quote(key), None).Bytes() + "\n",
                  Result("", Some(NotFound)).Bytes() + "\n"],
                 store - {key})
  {
    AnswerGet(store, ctx, get_, key);
    var e2, e3, e4 := ReadEvent(get_, NoReadError), ReadEvent(del_, NoReadError), ReadEvent(get_, NoReadError);
    ServeDelThenGet(store, ctx, key, get_, del_);
    ServeOne(e2, [e3, e4], store, ctx, Result(ValuePrefix + store[key], None), store);
    SeqCons2(e2, e3, e4);
  }

  /** The session above for any request texts that parse as its requests. */
  lemma ServeSession(store: Store, ctx: Context, key: string, value: string, set_: string, get_: string, del_: string)
    requires !ctx.Done() && key != ""
    requires |set_| < BufferSize && |get_| < BufferSize && |del_| < BufferSize
    requires Parse(set_) == Ok(Query(MethodSet, [key, value]))
    requires Parse(get_) == Ok(Query(MethodGet, [key]))
    requires Parse(del_) == Ok(Query(MethodDel, [key]))
    ensures Serve([ReadEvent(set_, NoReadError), ReadEvent(get_, NoReadError),
                   ReadEvent(del_, NoReadError), ReadEvent(get_, NoReadError)], [], store, ctx)
      == Session([Result(SavedPrefix + Quote(key), None).Bytes() + "\n",
                  Result(ValuePrefix + value, None).Bytes() + "\n",
                  Result(DeletedPrefix + Quote(key), None).Bytes() + "\n",
                  Result("", Some(NotFound)).Bytes() + "\n"],
                 store - {key})
  {
    var s1 := store[key := value];
    var e1, e2, e3, e4 := ReadEvent(set_, NoReadError), ReadEvent(get_, NoReadError),
                          ReadEvent(del_, NoReadError), ReadEvent(get_, NoReadError);
    var r1 := Result(SavedPrefix + Quote(key), None);
    var l2, l3, l4 := Result(ValuePrefix + value, None).Bytes() + "\n",
                      Result(DeletedPrefix + Quote(key), None).Bytes() + "\n",
                      Result("", Some(NotFound)).Bytes() + "\n";
    AnswerSet(store, ctx, set_, key, value);
    ServeGetDelGet(s1, ctx, key, get_, del_);
    assert s1[key] == value && s1 - {key} == store - {key};
    ServeAhead(e1, [e2, e3, e4], store, ctx, r1, s1, [l2, l3, l4], store - {key});
    SeqCons3(e1, e2, e3, e4);
    SeqCons3(r1.Bytes() + "\n", l2, l3, l4);
  }

  /** A served read puts its answer's line ahead of the session that follows. */
  lemma ServeAhead(ev: ReadEvent, events: seq<ReadEvent>, store: Store, ctx: Context, r: Result, after: Store,
                   lines: seq<string>, final: Store)
    requires ev.err != EOF && |ev.data| < BufferSize
    requires Answer(store, ctx, ev.data) == Reply(r, after)
    requires Serve(events, [], after, ctx) == Session(lines, final)
    ensures Serve([ev] + events, [], store, ctx) == Session([r.Bytes() + "\n"] + lines, final)
  {
    ServeOne(ev, events, store, ctx, r, after);
  }

  // ---------------------------------------------------------------------
  // The Network object
  // ---------------------------------------------------------------------

  class Network {
    var engine: Memory

    constructor (engine: Memory)
      ensures this.engine == engine
    {
      this.engine := engine;
    }

    /** `Network.Handle`: one engine call for SET, GET and DEL, none otherwise. */
    method Handle(ctx: Context, q: Query) returns (res: Result, err: Option<Error>)
      requires HasArgs(q)
      modifies engine
      ensures Handled(res, err, engine.store) == Dispatch(old(engine.store), ctx, q)
      ensures engine.calls == old(engine.calls) + CallsFor(q)
    {
      match q.Command() {
        case MethodSet =>
          err := engine.Set(ctx, q.Arguments()[0], q.Arguments()[1]);
          if err.Some? {
            return Result("", None), err;
          }
          return Result(SavedPrefix + Quote(q.Arguments()[0]), None), err;
        case MethodGet =>
          var v := engine.Get(ctx, q.Arguments()[0]);
          if v.Err? {
            return Result("", None), Some(v.error);
          }
          return Result(ValuePrefix + FormatV(v.value), None), None;
        case MethodDel =>
          err := engine.Del(ctx, q.Arguments()[0]);
          if err.Some? {
            return Result("", None), err;
          }
          return Result(DeletedPrefix + Quote(q.Arguments()[0]), None), err;
        case _ =>
      }
      return Result("", None), Some(UnknownCommand);
    }

    /** `Network.Print`: one write of the result's line. */
    method Print(w: Stream, res: Result) returns (err: Option<Error>)
      modifies w
      ensures w.input == old(w.input) && w.writes == old(w.writes) + 1
      ensures w.outcomes == Tail(old(w.outcomes))
      ensures err == if NextFails(old(w.outcomes)) then Some(WriteFailed) else None
      ensures w.out == if err.Some? then old(w.out) else old(w.out) + res.Bytes() + "\n"
    {
      err := w.Write(res.Bytes() + "\n");
    }

    /** One request of `handleClient` once it is read: parse, handle, print.
        The loop prints at three places (parse error, handler error,
        success); each stops the loop when its write fails. */
    method Respond(ctx: Context, c: Stream, text: string) returns (stop: bool)
      modifies c, engine
      ensures c.input == old(c.input) && c.outcomes == Tail(old(c.outcomes))
      ensures stop == NextFails(old(c.outcomes))
      ensures engine.store == Answer(old(engine.store), ctx, text).store
      ensures c.out == old(c.out) + (if stop then "" else Answer(old(engine.store), ctx, text).res.Bytes() + "\n")
    {
      var res: Result;
      match Parse(text) {
        case Err(pErr) =>
          res := Result(Message(pErr), None);
        case Ok(q) =>
          ParsedHasArgs(text);
          var hErr;
          res, hErr := Handle(ctx, q);
          res := Fold(Handled(res, hErr, engine.store));
      }
      var wErr := Print(c, res);
      stop := wErr.Some?;
    }

    /** One turn of `handleClient`'s loop: a read and, unless it ends the
        loop, the request's answer. What the connection still receives
        afterwards completes the session that was pending before. */
    method Turn(ctx: Context, c: Stream, request: array<char>) returns (stop: bool, ghost line: string)
      requires request.Length == BufferSize
      modifies c, engine, request
      ensures stop ==>
        && c.out == old(c.out) + Concat(Serve(old(c.input), old(c.outcomes), old(engine.store), ctx).lines)
        && engine.store == Serve(old(c.input), old(c.outcomes), old(engine.store), ctx).store
      ensures !stop ==>
        && |c.input| < |old(c.input)|
        && c.out == old(c.out) + line
        && Serve(old(c.input), old(c.outcomes), old(engine.store), ctx)
           == Session([line] + Serve(c.input, c.outcomes, engine.store, ctx).lines,
                      Serve(c.input, c.outcomes, engine.store, ctx).store)
    {
      ghost var in0, oc0, st0, out0 := c.input, c.outcomes, engine.store, c.out;
      var count, rErr := c.Read(request);
      if rErr == EOF {
        return true, "";
      }
      if count == BufferSize {
        return true, "";
      }
      assert !Stops(in0) && request[..count] == in0[0].data && c.input == in0[1..];
      ghost var a := Answer(st0, ctx, in0[0].data);
      ServeStep(in0, oc0, st0, ctx, a.res, a.store);
      stop := Respond(ctx, c, request[..count]);
      line := a.res.Bytes() + "\n";
    }

    /** `handleClient`: the connection receives exactly the lines of the
        session its reads and writes make, and the engine ends in that
        session's key space. */
    method HandleClient(ctx: Context, c: Stream)
      modifies c, engine
      ensures c.out == old(c.out) + Concat(Serve(old(c.input), old(c.outcomes), old(engine.store), ctx).lines)
      ensures engine.store == Serve(old(c.input), old(c.outcomes), old(engine.store), ctx).store
    {
      ghost var total := Serve(c.input, c.outcomes, engine.store, ctx);
      ghost var written: seq<string> := [];
      var request := new char[BufferSize];
      while true
        invariant request.Length == BufferSize
        invariant c.out == old(c.out) + Concat(written)
        invariant total.lines == written + Serve(c.input, c.outcomes, engine.store, ctx).lines
        invariant total.store == Serve(c.input, c.outcomes, engine.store, ctx).store
        decreases |c.input|
      {
        ghost var out0 := c.out;
        ghost var rest := Serve(c.input, c.outcomes, engine.store, ctx);
        var stop, line := Turn(ctx, c, request);
        if stop {
          WrittenThenRest(old(c.out), written, rest.lines);
          break;
        }
        ghost var after := Serve(c.input, c.outcomes, engine.store, ctx);
        WrittenThenRest(old(c.out), written, [line]);
        OneLine(line);
        AppendAssoc(written, [line], after.lines);
        written := written + [line];
      }
    }
  }
}
