/** The command grammar (compute/command/commands.go): the method vocabulary
    SET, GET and DEL and the argument-count rule of each. */
module Commands {
  import opened Errors
  import opened Text

  /** Go's `type Method int`: any integer is a Method; three are named. */
  newtype Method = int

  const MethodSet: Method := 0
  const MethodGet: Method := 1
  const MethodDel: Method := 2

  predicate IsKnown(m: Method)
  {
    m == MethodSet || m == MethodGet || m == MethodDel
  }

  /** `Method.String`. */
  function MethodString(m: Method): (name: string)
    ensures name == "unknown" <==> !IsKnown(m)
    ensures IsKnown(m) ==> |name| == 3
  {
    if m == MethodSet then "SET"
    else if m == MethodGet then "GET"
    else if m == MethodDel then "DEL"
    else "unknown"
  }

  /** `ParseMethod`: the length is checked before the case is folded. A
      token is accepted exactly when it upper-cases to a method's name
      (ParseMethodComplete gives the other direction). */
  function ParseMethod(input: string): (r: Outcome<Method>)
    ensures |input| != 3 ==> r == Err(InvalidCommand)
    ensures r.Err? ==> r.error == InvalidCommand
    ensures r.Ok? ==> IsKnown(r.value) && MethodString(r.value) == ToUpper(input)
  {
    if |input| != 3 then Err(InvalidCommand)
    else
      var upper := ToUpper(input);
      if upper == "SET" then Ok(MethodSet)
      else if upper == "GET" then Ok(MethodGet)
      else if upper == "DEL" then Ok(MethodDel)
      else Err(InvalidCommand)
  }

  lemma ParseMethodComplete(input: string, m: Method)
    requires IsKnown(m) && ToUpper(input) == MethodString(m)
    ensures ParseMethod(input) == Ok(m)
  {
  }

  /** Parsing a method's own name gives it back; every other Method value
      prints as "unknown". */
  lemma MethodStringRoundTrip(m: Method)
    ensures IsKnown(m) ==> ParseMethod(MethodString(m)) == Ok(m)
    ensures !IsKnown(m) ==> MethodString(m) == "unknown"
  {
    if IsKnown(m) {
      var s := MethodString(m);
      assert ToUpper(s) == s;
    }
  }

  /** Two tokens that differ only in the case of ASCII letters parse alike. */
  lemma ParseMethodIgnoresCase(s: string, t: string)
    requires ToUpper(s) == ToUpper(t)
    ensures ParseMethod(s) == ParseMethod(t)
  {
  }

  lemma ParseMethodExamples()
    ensures ParseMethod("SET") == Ok(MethodSet)
    ensures ParseMethod("set") == Ok(MethodSet)
    ensures ParseMethod("gEt") == Ok(MethodGet)
    ensures ParseMethod("DEL") == Ok(MethodDel)
    ensures ParseMethod("ABC") == Err(InvalidCommand)
    ensures ParseMethod("") == Err(InvalidCommand)
    ensures ParseMethod(" SET ") == Err(InvalidCommand)
  {
    assert ToUpper("set") == "SET";
    assert ToUpper("gEt") == "GET";
    assert ToUpper("GET") == "GET";
    assert ToUpper("DEL") == "DEL";
    assert ToUpper("ABC") == "ABC";
  }

  // ---------------------------------------------------------------------
  // ParseArguments
  // ---------------------------------------------------------------------

  /** The arguments with every empty string removed, in their order. */
  function Cleared(args: seq<string>): (c: seq<string>)
    ensures |c| <= |args|
    ensures forall i :: 0 <= i < |c| ==> c[i] != ""
  {
    if args == [] then []
    else (if args[0] == "" then [] else [args[0]]) + Cleared(args[1..])
  }

  /** Removing the empty strings is done piece by piece: the cleared list
      keeps the relative order of the arguments. */
  lemma {:induction false} ClearedAppend(a: seq<string>, b: seq<string>)
    ensures Cleared(a + b) == Cleared(a) + Cleared(b)
    decreases |a|
  {
    if a == [] {
      assert a + b == b;
    } else {
      assert (a + b)[0] == a[0] && (a + b)[1..] == a[1..] + b;
      ClearedAppend(a[1..], b);
    }
  }

  /** An empty piece anywhere is cleared away. */
  lemma ClearedDropsEmpty(a: seq<string>, b: seq<string>)
    ensures Cleared(a + ([[]] + b)) == Cleared(a + b)
  {
    ClearedAppend(a, [[]] + b);
    ClearedAppend([[]], b);
    ClearedAppend(a, b);
    assert Cleared([[]]) == [];
  }

  /** An empty piece put after the first one: that first piece and the
      cleared rest are as they were. */
  lemma ClearedDropsEmptyPiece(a: seq<string>, b: seq<string>)
    requires |a| >= 1
    ensures |a + ([[]] + b)| >= 2 && |a + b| >= |a|
    ensures (a + ([[]] + b))[0] == (a + b)[0]
    ensures Cleared((a + ([[]] + b))[1..]) == Cleared((a + b)[1..])
  {
    assert (a + ([[]] + b))[1..] == a[1..] + ([[]] + b);
    assert (a + b)[1..] == a[1..] + b;
    ClearedDropsEmpty(a[1..], b);
  }

  /** Each non-empty string occurs in the cleared list as often as in the
      input, and the empty string does not occur. */
  lemma {:induction false} ClearedCounts(args: seq<string>, x: string)
    ensures multiset(Cleared(args))[x] == if x == "" then 0 else multiset(args)[x]
    decreases |args|
  {
    if args != [] {
      ClearedCounts(args[1..], x);
      assert args == [args[0]] + args[1..];
    }
  }

  /** Arguments without an empty string are kept as they are. */
  lemma {:induction false} ClearedKeepsNonEmpty(args: seq<string>)
    requires forall i :: 0 <= i < |args| ==> args[i] != ""
    ensures Cleared(args) == args
    decreases |args|
  {
    if args != [] {
      ClearedKeepsNonEmpty(args[1..]);
    }
  }

  /** The number of arguments a method takes; None for a Method value that
      is not one of the three, which is not checked. */
  function Arity(m: Method): Option<nat>
  {
    if m == MethodSet then Some(2)
    else if m == MethodGet || m == MethodDel then Some(1)
    else None
  }

  /** What `ParseArguments` returns: the cleared list when its length is the
      method's arity, or when the method has none; InvalidArguments
      otherwise. */
  function ArgumentsResult(m: Method, args: seq<string>): (r: Outcome<seq<string>>)
    ensures r.Ok? ==> r.value == Cleared(args)
    ensures r.Err? ==> r.error == InvalidArguments
    ensures r.Ok? <==> Arity(m).None? || |Cleared(args)| == Arity(m).value
  {
    var cleared := Cleared(args);
    match Arity(m)
    case None => Ok(cleared)
    case Some(n) => if |cleared| != n then Err(InvalidArguments) else Ok(cleared)
  }

  /** `ParseArguments`: the loop that builds `cleared`, then the count check. */
  method ParseArguments(m: Method, args: seq<string>) returns (r: Outcome<seq<string>>)
    ensures r == ArgumentsResult(m, args)
  {
    var cleared: seq<string> := [];
    var i := 0;
    while i < |args|
      invariant 0 <= i <= |args|
      invariant cleared == Cleared(args[..i])
    {
      assert args[..i + 1] == args[..i] + [args[i]];
      ClearedAppend(args[..i], [args[i]]);
      if args[i] != "" {
        cleared := cleared + [args[i]];
      }
      i := i + 1;
    }
    assert args[..|args|] == args;
    if m == MethodSet {
      if |cleared| != 2 {
        return Err(InvalidArguments);
      }
    } else if m == MethodGet || m == MethodDel {
      if |cleared| != 1 {
        return Err(InvalidArguments);
      }
    }
    return Ok(cleared);
  }

  /** The argument tests: the count is checked after clearing. */
  lemma ParseArgumentsExamples()
    ensures ArgumentsResult(MethodSet, ["key", "value"]) == Ok(["key", "value"])
    ensures ArgumentsResult(MethodGet, ["key"]) == Ok(["key"])
    ensures ArgumentsResult(MethodSet, ["key"]) == Err(InvalidArguments)
    ensures ArgumentsResult(MethodGet, ["key", "extra"]) == Err(InvalidArguments)
    ensures ArgumentsResult(MethodSet, ["", "value"]) == Err(InvalidArguments)
    ensures ArgumentsResult(MethodDel, [""]) == Err(InvalidArguments)
  {
    ClearedKeepsNonEmpty(["key", "value"]);
    ClearedKeepsNonEmpty(["key"]);
    ClearedKeepsNonEmpty(["key", "extra"]);
    ClearedKeepsNonEmpty(["value"]);
  }

  /** A Method value outside the three only has its empty arguments removed. */
  lemma ParseArgumentsUnknownExample()
    ensures ArgumentsResult(-1, ["", "a", "", "b", "c"]) == Ok(["a", "b", "c"])
  {
    ClearedKeepsNonEmpty(["b", "c"]);
    var five := ["", "a", "", "b", "c"];
    assert five[1..] == ["a", "", "b", "c"] && five[1..][1..] == ["", "b", "c"];
    assert five[1..][1..][1..] == ["b", "c"];
    assert Cleared(["", "b", "c"]) == ["b", "c"];
    assert Cleared(["a", "", "b", "c"]) == ["a", "b", "c"];
    assert Cleared(five) == ["a", "b", "c"];
  }
}
