# bcdb compute layer and in-memory engine, in Dafny

bcdb is a small key-value database. A client sends text requests such as
`SET key value`, `GET key` or `DEL key`. The compute layer handles each one:

1. The request is split on single spaces.
2. The first piece is parsed as a method, case-insensitively. The remaining
   pieces are the arguments; empty ones are dropped and the count is checked
   against the method.
3. The resulting query goes to a dispatcher, which makes one call on the
   storage engine.
4. The answer is written back as a `Result` line, tagged `RES: ` or `ERR: `.

This project models the following parts:

- **The command grammar** (`Commands`).
- **The query value** (`Queries`) and **the result value** with its wire form
  (`Results`).
- **The in-memory engine** (`Engine`). It is a class holding the key space
  that Set and Del update in place. A done context is refused before any key
  is looked at.
- **The three dispatchers and their parsers and printers:**
  - the REPL front end of compute/impl/repl (`ImplRepl`);
  - the TCP front end of compute/impl/network (`ImplNetwork`), including the
    per-connection request loop `handleClient`;
  - the REPL front end of compute/repl (`ComputeRepl`).
- **The request-ID and client-ID context helpers** (`ContextValues`).
- **The validation of the server configuration** (`Config`).

What the shared modules provide:

- `Text` models the Go library functions the core relies on:
  - `strings.Split` and `strings.ToUpper` (ASCII);
  - `fmt`'s `%v`, and `%q` together with its inverse.
- `Streams` models an `io.Writer` and a `net.Conn` as scripted streams. Each
  read delivers a given event. Each write succeeds or fails as its script
  says.

The request loop is proved against the function `ImplNetwork.Serve`. `Serve`
is the whole session: every line the connection receives, and the key space
the connection leaves behind. Lemmas about `Serve` state what a session
guarantees:

- Each line answers one read, in order.
- Every line is tagged.
- Parse errors come back as `RES: ` lines.
- Under a done context nothing changes.
- EOF, a full buffer and a failed write each end the loop.

## Model

| member | source | states |
|---|---|---|
| Errors.MessageInjective | compute/command/commands.go:9-10 | the texts of the errors (commands.go:9-10, the parsers' "invalid query" at compute/impl/network/parser.go:11, the engine's at storage/engine/memory.go:11-13 and 18-22, "unknown command" at compute/impl/network/handler.go:34) are pairwise distinct, so an "ERR: " line names exactly one error; `Errors.Message` is the table of those texts |
| Config.ConfigMessage | config/config.go:70-88 | the four texts `validate` returns are non-empty |
| Config.ConfigMessageInjective | config/config.go:70-88 | no two of `validate`'s errors share a text |
| Commands.ParseMethod | compute/command/commands.go:35-53 | a token whose length is not 3 is refused; every error is InvalidCommand; an accepted token upper-cases to the name of the known method returned |
| Commands.ParseMethodComplete | compute/command/commands.go:41-49 | every token that upper-cases to SET, GET or DEL is accepted as that method (the converse of ParseMethod's contract) |
| Commands.MethodStringRoundTrip | compute/command/commands.go:16-33 | parsing a method's String gives the method back; any other Method value prints as "unknown" |
| Commands.ParseMethodIgnoresCase | compute/command/commands.go:41 | tokens equal up to ASCII case parse alike |
| Commands.ParseMethodExamples | compute/command/commands.go:35-53 | SET, set, gEt and DEL are accepted; ABC, the empty token and " SET " are InvalidCommand |
| Commands.MethodString | compute/command/commands.go:16-26 | "unknown" exactly for a Method value other than the three; a known method's name has three characters, the length ParseMethod demands |
| Commands.Cleared | compute/command/commands.go:56-61 | the cleared list is no longer than the input and holds no empty string |
| Commands.ClearedAppend | compute/command/commands.go:57-61 | clearing distributes over concatenation, so the arguments keep their order |
| Commands.ClearedCounts | compute/command/commands.go:57-61 | every non-empty argument occurs in the cleared list as often as in the input; the empty string does not occur |
| Commands.ClearedKeepsNonEmpty | compute/command/commands.go:57-61 | arguments without an empty string are kept unchanged |
| Commands.ArgumentsResult | compute/command/commands.go:55-75 | success holds exactly the cleared list; otherwise the error is InvalidArguments; success happens exactly when the method has no arity or the cleared count equals it |
| Commands.ParseArguments | compute/command/commands.go:55-75 | the loop that builds `cleared` and the count switch return what ArgumentsResult specifies |
| Commands.ParseArgumentsExamples | compute/command/commands.go:63-72 | exact counts pass; a missing argument, an extra argument or an empty argument gives InvalidArguments |
| Commands.ParseArgumentsUnknownExample | compute/command/commands.go:63-74 | a Method value outside the three only has its empty arguments dropped |
| Queries.New | compute/query/query.go:12-25 | Command and Arguments return exactly what New was given |
| Queries.NewStoresAnything | compute/query/query.go:20-25 | any Method value and any argument list, including the empty one, is stored without checks |
| Results.Result.Bytes | compute/result/result.go:8-13 | the line starts with the five-character tag, "ERR: " when an error is set and "RES: " otherwise, followed by exactly as many characters as the error's text or the value has |
| Results.Failed | compute/result/result.go:3-6 | a Result built from an error carries that error and an empty value |
| Results.BytesTagged | compute/result/result.go:8-13 | the first five bytes are "ERR: " exactly when an error is set and "RES: " exactly when none is; the rest is the error's text or the value |
| Results.BytesIgnoresValue | compute/result/result.go:9-11 | when an error is set, the value is not written |
| Engine.DeferredLog | storage/engine/memory.go:113-124 | given what `recover()` returned there, a panic value turns into "internal error" and otherwise the operation's own error, nil included, is returned; the engine's calls always pass "no panic", as that `recover()` is not called directly by a deferred function |
| Engine.StoreSet | storage/engine/memory.go:52-59 | the unexported set succeeds exactly for a non-empty key and then maps the key to the value; the empty key gives "empty key" and changes nothing |
| Engine.StoreGet | storage/engine/memory.go:74-85 | the unexported get answers the stored value exactly when the key is non-empty and present; otherwise "empty key" or "not found" |
| Engine.StoreDel | storage/engine/memory.go:100-111 | the unexported del succeeds exactly for a non-empty present key and then removes only that key; otherwise "empty key" or "not found" with nothing changed |
| Engine.EngineSet | storage/engine/memory.go:38-50 | Set succeeds exactly under a live context with a non-empty key and then stores the value; a done context gives its own error; a failure changes nothing |
| Engine.EngineGet | storage/engine/memory.go:61-72 | Get answers the stored value exactly under a live context for a non-empty present key; a done context gives its own error |
| Engine.EngineDel | storage/engine/memory.go:87-98 | Del succeeds exactly under a live context for a non-empty present key and then removes it; a done context gives its own error; a failure changes nothing |
| Engine.SetThenGet | storage/engine/memory.go:38-85 | Set of a non-empty key under a live context succeeds, and a later Get of that key returns the value |
| Engine.SetOverwritesOnlyItsKey | storage/engine/memory.go:52-59 | Set overwrites unconditionally and every other key reads as before |
| Engine.EmptyKeyRefused | storage/engine/memory.go:52-55 | Set, Get and Del refuse the empty key with "empty key" and change nothing |
| Engine.AbsentKeyNotFound | storage/engine/memory.go:79-82 | Get and Del of an absent key report "not found" and change nothing |
| Engine.DelThenGet | storage/engine/memory.go:100-111 | Del removes exactly its key; a later Get of it reports "not found"; other keys read as before |
| Engine.DoneContextFirst | storage/engine/memory.go:44-46 | a done context is reported before any key check, even for the empty key, and the key space is kept for a later live call |
| Engine.Memory.constructor | storage/engine/memory.go:25-29 | a new engine starts with an empty key space |
| Engine.Memory.SetKey | storage/engine/memory.go:52-59 | the unexported set updates the key space as StoreSet says |
| Engine.Memory.GetKey | storage/engine/memory.go:74-85 | the unexported get answers as StoreGet says and changes nothing |
| Engine.Memory.DelKey | storage/engine/memory.go:100-111 | the unexported del updates the key space as StoreDel says |
| Engine.Memory.Set | storage/engine/memory.go:38-50 | the error and the new key space are EngineSet's; one SetCall is recorded |
| Engine.Memory.Get | storage/engine/memory.go:61-72 | the answer is EngineGet's; the key space is not modified; one GetCall is recorded |
| Engine.Memory.Del | storage/engine/memory.go:87-98 | the error and the new key space are EngineDel's; one DelCall is recorded |
| Engine.NewMemory | storage/engine/memory.go:16-30 | a missing logger is refused first, then a missing done channel; otherwise a fresh engine with an empty key space is returned |
| Handling.ArityGivesArgs | compute/impl/network/handler.go:16-28 | a query with its method's exact number of arguments can be dispatched without an index going out of range |
| ImplRepl.Dispatch | compute/impl/repl/handler.go:13-35 | an error answer has an empty value; a successful answer comes from a known method and leaves the engine call's key space; SET and DEL succeed with "success" |
| ImplRepl.DispatchFollowsEngine | compute/impl/repl/handler.go:13-35 | the Result's error is the engine call's error, with an empty value beside it; an unknown Method gives "unknown command" and changes nothing |
| ImplRepl.DispatchSuccessValues | compute/impl/repl/handler.go:15-32 | SET and DEL answer "success"; GET answers the stored value; the key space is updated as the engine says |
| ImplRepl.Repl.Handle | compute/impl/repl/handler.go:13-35 | the answer and the new key space are Dispatch's; exactly the engine call of the query's method is made |
| ImplRepl.Repl.Prompt | compute/impl/repl/printer.go:19-22 | one write of the prompt; the writer's error is returned |
| ImplRepl.Repl.Print | compute/impl/repl/printer.go:10-17 | "< " is written, then the result's bytes and a newline; if the prompt fails, its error is returned and nothing more is written |
| ImplRepl.PromptExample | compute/impl/repl/printer_test.go:53-55 | the prompt writes exactly "> " to a working writer; with a failing writer the error is returned and nothing is written |
| ImplRepl.PrintExample | compute/impl/repl/printer_test.go:21-22 | printing "output" writes "< RES: output" and a newline to a working writer; with a failing writer the error is returned and nothing is written |
| ImplNetwork.Parse | compute/impl/network/parser.go:13-30 | "invalid query" exactly when the input holds no space; otherwise a bad first piece gives "invalid command" and a bad count "invalid arguments"; success exactly when both parse, carrying the first piece's method and the cleared remaining pieces, with the exact arity and no empty argument |
| ImplNetwork.ParsePieces | compute/impl/network/parser.go:15-29 | "invalid query" exactly when there are fewer than two pieces; then ParseMethod's error is returned as "invalid command" and ArgumentsResult's as "invalid arguments"; success exactly when both succeed, carrying the first piece's method and the cleared rest |
| ImplNetwork.ParsePiecesCleared | compute/impl/network/parser.go:24-27 | pieces after the first matter only once cleared of empty strings |
| ImplNetwork.ParsedHasArgs | compute/impl/network/parser.go:29 | every query Parse returns can be dispatched |
| ImplNetwork.ParseRendered | compute/impl/network/parser.go:13-30 | a method token in any case, a space, and the method's exact number of non-empty, space-free arguments joined by spaces parse back to that query |
| ImplNetwork.DoubledSpace | compute/impl/network/parser.go:14-27 | a doubled space parses like a single one |
| ImplNetwork.ParseTokens | compute/impl/network/parser.go:14 | space-free tokens joined by spaces split back into those tokens |
| ImplNetwork.ParseSetExample | compute/impl/network/parser.go:13-30 | "SET key value" parses to SET with arguments key and value |
| ImplNetwork.ParseGetExample | compute/impl/network/parser.go:13-30 | "GET key" parses to GET with argument key |
| ImplNetwork.ParseInvalidExamples | compute/impl/network/parser.go:15-22 | "INVALID key" is "invalid command"; the empty input is "invalid query" |
| ImplNetwork.ParseMissingArgumentExample | compute/impl/network/parser.go:24-27 | "SET key" is "invalid arguments" |
| ImplNetwork.ParseExtraArgumentExample | compute/impl/network/parser.go:24-27 | "GET key extra" is "invalid arguments" |
| ImplNetwork.ParseTrailingSpaceExample | compute/impl/network/parser.go:14-27 | "GET k " parses to GET with argument k: the empty piece a trailing space leaves is cleared |
| ImplNetwork.ParseLeadingSpaceExample | compute/impl/network/parser.go:14-22 | " SET a b" is "invalid command": a leading space makes the method piece empty |
| ImplNetwork.Dispatch | compute/impl/network/handler.go:13-35 | the Result's own error is never set; with an error beside it the value is empty and the key space is unchanged; without one the method is known and the value is non-empty |
| ImplNetwork.DispatchFollowsEngine | compute/impl/network/handler.go:13-35 | the second result is the engine call's error, with an empty Result beside it; the Result's own error is never set; an unknown Method gives "unknown command" |
| ImplNetwork.DispatchSuccessValues | compute/impl/network/handler.go:15-32 | SET and DEL answer "saved key " and "deleted key " followed by a quoted key that unquotes back to the key; GET answers "value: " and the stored value |
| ImplNetwork.Fold | compute/impl/network/server.go:146-147 | the handler's error, when there is one, becomes the Result's error; the value is kept |
| ImplNetwork.Answer | compute/impl/network/server.go:125-175 | a request that does not parse is answered with the parse error's text as a plain value and changes nothing; an answer carrying an error comes from a parsed request, has an empty value and changes nothing |
| ImplNetwork.AnswerFollowsEngine | compute/impl/network/server.go:125-175 | a parse error is answered as a plain value and changes nothing; otherwise the answer's error and the key space are the engine's; under a done context a parsed request gets the context's error |
| ImplNetwork.ConcatAppend | compute/impl/network/server.go:102-181 | (helper for HandleClient) the text written by successive turns is the concatenation of their lines |
| ImplNetwork.Serve | compute/impl/network/server.go:102-181 | the session of one connection: at most one line per read, and nothing answered or changed when the first read is missing, EOF or fills the buffer |
| ImplNetwork.ServeStops | compute/impl/network/server.go:104-118 | EOF, even with bytes beside it, or a read that fills the 1024-byte buffer ends the loop without an answer |
| ImplNetwork.ServeStopsOnWriteFailure | compute/impl/network/server.go:132-175 | a failed write ends the loop; the request's own engine call has still taken effect |
| ImplNetwork.ServeAnswersReads | compute/impl/network/server.go:102-181 | at most one line per read; line i answers read i, which was neither EOF nor full, and whose write succeeded |
| ImplNetwork.PrintedLineTagged | compute/impl/network/printer.go:9-12 | a printed line is a tag and a trailing newline |
| ImplNetwork.ServeLinesTagged | compute/impl/network/server.go:132-175 | every line the connection receives is tagged and ends in a newline |
| ImplNetwork.ServeParseErrorLines | compute/impl/network/server.go:125-142 | a request that does not parse is answered "RES: " and the parse error's text |
| ImplNetwork.ServeDoneLines | compute/impl/network/server.go:146-164 | under a done context every request that parses is answered "ERR: " and the context's error |
| ImplNetwork.ServeDoneKeepsStore | compute/impl/network/server.go:146 | under a done context the key space is never changed |
| ImplNetwork.ServeAnswersFailedRead | compute/impl/network/server.go:103-125 | a read error other than EOF does not end the loop; whatever space-free data that read delivered, the empty request included, is answered "RES: invalid query" |
| ImplNetwork.ServeStep | compute/impl/network/server.go:102-181 | one answered read either ends the loop on a failed write or puts its line ahead of the rest of the session |
| ImplNetwork.ServeOne | compute/impl/network/server.go:102-181 | with working writes, a served read puts its answer's line ahead of the rest |
| ImplNetwork.AnswerSet | compute/impl/network/server.go:125-175 | a parsed SET under a live context is answered "saved key " and the quoted key, and stores the value |
| ImplNetwork.AnswerGet | compute/impl/network/server.go:125-175 | a parsed GET is answered "value: " and the stored value, or with "not found" |
| ImplNetwork.AnswerDel | compute/impl/network/server.go:125-175 | a parsed DEL is answered "deleted key " and the quoted key and removes the key, or answers "not found" |
| ImplNetwork.ParseSetRequest | compute/impl/network/parser.go:13-30 | "SET k v" with non-empty, space-free k and v parses to that SET |
| ImplNetwork.ParseGetRequest | compute/impl/network/parser.go:13-30 | "GET k" with a non-empty, space-free k parses to that GET |
| ImplNetwork.ParseDelRequest | compute/impl/network/parser.go:13-30 | "DEL k" with a non-empty, space-free k parses to that DEL |
| ImplNetwork.SessionLines | compute/result/result.go:8-13 | (helper for ServeScenario) the wire lines of the four answers of a session |
| ImplNetwork.ServeDelThenGet | compute/impl/network/server.go:102-181 | DEL then GET of a stored key: "deleted key …", then "not found", and the key is gone |
| ImplNetwork.ServeGetDelGet | compute/impl/network/server.go:102-181 | GET, DEL, GET of a stored key: the value, the deletion, then "not found" |
| ImplNetwork.ServeSession | compute/impl/network/server.go:102-181 | a SET, GET, DEL, GET session over any request texts that parse so yields the four expected lines and leaves the store without the key |
| ImplNetwork.ServeScenario | compute/impl/network/server.go:102-181 | the same session typed by the peer, its lines written out tag by tag |
| ImplNetwork.Network.constructor | compute/impl/network/handler.go:13 | the network front end holds the engine it is given |
| ImplNetwork.Network.Handle | compute/impl/network/handler.go:13-35 | the (Result, error) pair and the new key space are Dispatch's; exactly the engine call of the query's method is made |
| ImplNetwork.Network.Print | compute/impl/network/printer.go:9-12 | one write of the result's bytes and a newline; its error is returned |
| ImplNetwork.Network.Respond | compute/impl/network/server.go:125-175 | parse, handle and print one request: the line written and the new key space are Answer's; the loop stops exactly when the write fails |
| ImplNetwork.Network.Turn | compute/impl/network/server.go:103-175 | one iteration: on EOF or a full buffer the loop ends with the pending session complete; otherwise the line written heads the pending session |
| ImplNetwork.Network.HandleClient | compute/impl/network/server.go:81-182 | the connection receives exactly the lines of Serve, in order, and the engine ends in Serve's key space |
| ComputeRepl.Parse | compute/repl/parser.go:15-32 | never "invalid query"; a bad first piece gives "invalid command" and a bad count "invalid arguments"; success exactly when both parse, carrying the first piece's method and the cleared remaining pieces, with the exact arity and no empty argument |
| ComputeRepl.ParsePieces | compute/repl/parser.go:16-31 | the "invalid query" guard fires exactly on an empty list of pieces, which Split never returns; then ParseMethod's error is "invalid command" and ArgumentsResult's "invalid arguments"; success exactly when both succeed, carrying the first piece's method and the cleared rest |
| ComputeRepl.ParsersAgreeWithSpace | compute/repl/parser.go:15-32 | on an input with a space, this parser and the network parser answer alike |
| ComputeRepl.ParsersDifferWithoutSpace | compute/repl/parser.go:17-29 | without a space the network parser says "invalid query", while this one says "invalid command" for a bad token and "invalid arguments" for a good one |
| ComputeRepl.ParsersAgreeOnSuccess | compute/repl/parser.go:15-32 | whenever either parser accepts an input, both return the same query |
| ComputeRepl.ParseShortExamples | compute/repl/parser.go:17-29 | "" is "invalid command" and "GET" is "invalid arguments" |
| ComputeRepl.ParseSetExample | compute/repl/parser.go:15-32 | "SET key value" parses to SET with key and value |
| ComputeRepl.ParseGetExample | compute/repl/parser.go:15-32 | "GET key" parses to GET with key |
| ComputeRepl.ParseInvalidExample | compute/repl/parser.go:21-24 | "INVALID key" is "invalid command" |
| ComputeRepl.ParseMissingArgumentExample | compute/repl/parser.go:26-29 | "SET key" is "invalid arguments" |
| ComputeRepl.ParseExtraArgumentExample | compute/repl/parser.go:26-29 | "GET key extra" is "invalid arguments" |
| ComputeRepl.Repl.constructor | compute/repl/handler.go:13 | the REPL front end holds the engine it is given |
| ComputeRepl.Repl.Handle | compute/repl/handler.go:13-35 | the (Result, error) pair and the new key space are those of the network dispatcher; exactly the engine call of the query's method is made |
| ContextValues.WithValue | util/context.go:20 | the key holds the new value and every other key keeps its value |
| ContextValues.SetRequestID | util/context.go:16-21 | nil stays nil; otherwise the derived context holds the request ID as a string under its key and every other key as before |
| ContextValues.GetRequestID | util/context.go:23-31 | a non-empty answer is a string stored under the request-ID key of a non-nil context; a string stored there is what is answered |
| ContextValues.SetClientID | util/context.go:33-38 | nil stays nil; otherwise the derived context holds the client ID as a string under its key and every other key as before |
| ContextValues.GetClientID | util/context.go:40-48 | a non-empty answer is a string stored under the client-ID key of a non-nil context; a string stored there is what is answered |
| ContextValues.RequestIDRoundTrip | util/context.go:16-31 | on a non-nil context the request ID that is set is the one read back |
| ContextValues.ClientIDRoundTrip | util/context.go:33-48 | on a non-nil context the client ID that is set is the one read back |
| ContextValues.NilContext | util/context.go:17-26 | a nil context stays nil when set and reads as "" |
| ContextValues.GetterReadsOnlyStrings | util/context.go:27-30 | a getter returns text only when a string is stored under its key; an absent key or a non-string value reads as "" |
| ContextValues.IDsAreIndependent | util/context.go:8-14 | the two IDs use different keys: setting one leaves the other as it reads |
| ContextValues.SetterChangesOnlyItsKey | util/context.go:16-21 | a setter derives a context that differs only in its own key |
| ContextValues.ContextExamples | util/context.go:16-48 | the test tables: set and get on Background, over an earlier value, with an int value, and on nil |
| Config.ParseInt64 | config/config.go:74-77 | a number is returned exactly when the string, after one optional leading '+' or '-', is a non-empty run of decimal digits whose signed value lies in the 64-bit range, and the number returned is that signed value; the empty string is not a number |
| Config.DigitsValueLeadingZero | config/config.go:74 | (helper for LeadingZeroIgnored) a zero put in front of a digit string keeps its value |
| Config.LeadingZeroIgnored | config/config.go:74 | leading zeros do not change the number, so "08080" is 8080 |
| Config.PlusSignIgnored | config/config.go:74 | a leading '+' changes nothing, so "+8080" is 8080 |
| Config.NonDigitRejected | config/config.go:74-77 | a character that is neither a digit nor a sign in first place makes the port "not a number", so "8x0" is refused |
| Config.Parse8080 | config/config.go:74 | "8080" is the number 8080 |
| Config.ParseInt64SignExamples | config/config.go:74 | "+8080" and "08080" both parse to 8080 |
| Config.ParseInt64RejectExamples | config/config.go:74-77 | "-0" is 0; "8x0", a lone "+" and "+-1" are not numbers |
| Config.Validate | config/config.go:70-88 | each error is an if-and-only-if, checked in order: "required" exactly for an empty port, "not a number" exactly when a non-empty port does not parse, "between 1 and 65535" exactly when the parsed port is outside that range, "max clients" exactly for a port in range with fewer than one client; valid exactly when none applies |
| Config.FormatNat | config/config.go:74 | a natural number's decimal form is non-empty and all digits |
| Config.DigitsValueFormat | config/config.go:74 | the digits of a natural number denote that number |
| Config.ParseFormat | config/config.go:74-77 | every 64-bit integer, written in decimal, parses back to itself |
| Config.ValidateFormattedPort | config/config.go:70-88 | a port written in decimal is accepted exactly when it is in 1..65535 and clients are allowed |
| Config.Pow10Grows | config/config.go:74 | (helper for WideNumberRejected) powers of ten grow with the exponent |
| Config.DigitsValueLowerBound | config/config.go:74 | (helper for WideNumberRejected) a digit string without a leading zero is at least ten to the power of its length less one |
| Config.WideNumberRejected | config/config.go:74-77 | twenty or more digits without a leading zero do not fit in 64 bits and are "not a number" |
| Config.ValidateTableExamples | config/config.go:70-88 | 8080 with 10 clients is valid; 8080 with 0 clients is too few |
| Config.ValidateRangeExamples | config/config.go:78-80 | -1 and 70000 parse but are out of range |
| Config.ValidateErrorExamples | config/config.go:71-77 | an empty port is required; "80a" is not a number |
| Config.ValidateWidePortExample | config/config.go:74-77 | a 20-digit port is "not a number", not "out of range" |
| Text.ToUpper | compute/command/commands.go:41 | upper-casing keeps the token's length, so the length check and the name match see the same token |
| Text.ToUpperBytes | compute/command/commands.go:41 | upper-casing works byte by byte: each byte becomes its ASCII capital, and a byte changes exactly when it is a lower-case letter |
| Text.Split | compute/impl/network/parser.go:14 | Split returns at least one piece |
| Text.SplitPiecesHaveNoSeparator | compute/impl/network/parser.go:14 | no piece contains the separator |
| Text.JoinSplit | compute/impl/network/parser.go:14 | joining the pieces with the separator gives back the input |
| Text.SplitWithoutSeparator | compute/impl/network/parser.go:14-17 | an input without the separator splits into itself alone |
| Text.SplitAtSeparator | compute/impl/network/parser.go:14 | splitting a + sep + b is splitting a, then splitting b |
| Text.SplitAtDoubledSeparator | compute/impl/network/parser.go:14 | a doubled separator leaves one empty piece between the two halves |
| Text.SplitHasTwoPiecesIff | compute/impl/network/parser.go:14-17 | there are at least two pieces exactly when the separator occurs |
| Text.SplitJoin | compute/impl/network/parser.go:14 | separator-free pieces joined by the separator split back into themselves |
| Text.UnescapeEscape | compute/impl/network/handler.go:20 | undoing %q's escaping gives the text back |
| Text.UnquoteQuote | compute/impl/network/handler.go:20-32 | a key written with %q, as the SET and DEL answers write it, unquotes back to itself |
| Streams.Stream.Write | compute/impl/network/printer.go:10 | a write appends its bytes, or reports a failure and writes nothing, as the script says |
| Streams.Stream.Read | compute/impl/network/server.go:103 | a read copies the next event into the buffer; what does not fit waits for the next read; with nothing left, it reports EOF |

## Left out

- `Network.New`, `Network.Run`, the listener, the client semaphore and the engine shutdown in server.go: they are networking and concurrency. The model starts at one accepted connection.
- In `handleClient`:
  - The deferred `recover` and `Close`, and all logging, are left out.
  - The request ID set into the context at server.go:120-122 is left out. It comes from util/id, is random, and is only logged.
- `RequestID` in util/id.go is not part of this model: it is randomness.
- `Memory.Done` and `Memory.Close` are left out. They are channel operations with no effect on the key space.
- Engine.DeferredLog: only its returned error is modelled, not the logging or the elapsed time. The panic branch is kept in the function but never taken (see Notes).
- Engine.Context: a context is live, cancelled or past its deadline. Timers and channels are not modelled.
- ImplNetwork.Serve, ImplNetwork.Network.HandleClient: one context serves the whole connection, so a session is entirely live or entirely done. In the server the context can become done between two reads; a session that changes state part-way is not modelled.
- Stored values are `any` in Go. Every caller stores strings, so the key space maps strings to strings, and `%v` of a value is the string itself.
- The REPL run loops (compute/impl/repl/repl.go, compute/repl/repl.go), the client, `main`, the logger and the compute wiring are not part of this model. They are stdin, stdout and process setup.
- compute/repl has no printer among the files modelled; only its parser and dispatcher are modelled.
- `config.Load` (reading files and the environment) is left out. Only `validate` is modelled, with the port as the string it is in the code.
- Text.ToUpper, Text.Quote: a Go string is modelled with one `char` per byte, so `len` is the byte length. Only ASCII behaviour is modelled. Go reads multi-byte UTF-8 sequences as runes when it upper-cases and quotes; that is left out.
- Config.ParseInt64: `strconv.ParseInt` with base 10 accepts no underscores and no base prefix, and neither does the model. Its error kinds (syntax or range) are merged, because `validate` only asks whether there was an error.
- Streams.Stream.Write: a write either puts all its bytes on the output or fails and puts none. An `io.Writer` may write part of a line and then fail; partial writes are not modelled.
- Streams.Stream.Read: a read delivers at most one scripted event. Splitting or merging of TCP segments is fixed by the script rather than modelled.

## Notes

- In the code, the network dispatcher returns a `(Result, error)` pair (handler.go:13). `handleClient` uses it as one `Result` (server.go:146-147). The model follows the pair. `ImplNetwork.Fold` puts the error into the Result, which is the evident meaning of the loop's `res.Error` check.
- A parse error is printed as the Result's value (server.go:132). So it goes out tagged `RES: `, not `ERR: `.
- The network handler's tests expect SET to answer "success". The code answers `saved key "k"`. The model follows the code.
- The REPL printer's test expects `< output`. The code writes `< RES: output`, because `Print` writes `Result.Bytes()`. The model follows the code (`ImplRepl.PrintExample`).
- The configuration tests build the port as an int. The code holds it as a string and parses it in `validate`. The model follows the code.
- The `len(parts) == 0` guard of compute/repl/parser.go:17 never fires, because `strings.Split` always returns at least one piece. As a result, that parser reports "invalid command" or "invalid arguments" for inputs without a space, where the network parser reports "invalid query".
- `deferredLog` calls `recover()` (memory.go:114), but `deferredLog` is called from the deferred closures of Set, Get and Del (memory.go:39-41, 62-64, 88-90) rather than deferred itself. Go's `recover` returns nil unless a deferred function calls it directly. So, reading the source (nothing was executed), the "internal error" branch never fires and a panic in set, get or del is not recovered. `Engine.DeferredLog` keeps that branch, and every engine call passes "no panic".
