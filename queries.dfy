/** The Query value object (compute/query/query.go): a method with its
    argument list, stored without validation. */
module Queries {
  import opened Commands

  datatype Query = Query(cmd: Method, arguments: seq<string>)
  {
    /** `Query.Command`. */
    function Command(): Method
    {
      cmd
    }

    /** `Query.Arguments`. */
    function Arguments(): seq<string>
    {
      arguments
    }
  }

  /** `query.New(method, arguments...)`: the accessors give back exactly what
      was passed in; nothing is checked, so any Method and any number of
      arguments, none included, are stored. */
  function New(m: Method, args: seq<string>): (q: Query)
    ensures q.Command() == m
    ensures q.Arguments() == args
  {
    Query(m, args)
  }

  lemma NewStoresAnything()
    ensures New(MethodDel, ["key1", "key2", "key3"]).Arguments() == ["key1", "key2", "key3"]
    ensures New(0, ["key"]).Command() == MethodSet
    ensures New(-1, []).Command() == -1 && New(-1, []).Arguments() == []
  {
  }
}
