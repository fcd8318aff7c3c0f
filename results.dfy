/** The Result value (compute/result/result.go) and its wire form. */
module Results {
  import opened Errors

  const ResTag: string := "RES: "
  const ErrTag: string := "ERR: "

  datatype Result = Result(value: string, error: Option<Error>)
  {
    /** `Result.Bytes`: the error's text after the ERR tag when an error is
        set, the value after the RES tag otherwise. */
    function Bytes(): (b: string)
      ensures |b| >= 5 && b[..5] == if error.Some? then ErrTag else ResTag
      ensures |b| == 5 + if error.Some? then |Message(error.value)| else |value|
    {
      if error.Some? then ErrTag + Message(error.value) else ResTag + value
    }
  }

  /** `result.Result{Error: err}`. */
  function Failed(e: Error): (r: Result)
    ensures r.value == "" && r.error == Some(e)
  {
    Result("", Some(e))
  }

  /** The first five characters carry the tag, which says whether an error was
      set; the rest is the error's text or the value. */
  lemma BytesTagged(r: Result)
    ensures |r.Bytes()| >= 5
    ensures r.Bytes()[..5] == ErrTag <==> r.error.Some?
    ensures r.Bytes()[..5] == ResTag <==> r.error.None?
    ensures r.Bytes()[5..] == if r.error.Some? then Message(r.error.value) else r.value
  {
    var b := r.Bytes();
    if r.error.Some? {
      assert b[..5] == ErrTag;
      assert b[..5] != ResTag by { assert b[0] != ResTag[0]; }
    } else {
      assert b[..5] == ResTag;
      assert b[..5] != ErrTag by { assert b[0] != ErrTag[0]; }
    }
  }

  /** When an error is set the value is not written. */
  lemma BytesIgnoresValue(v: string, w: string, e: Error)
    ensures Result(v, Some(e)).Bytes() == Result(w, Some(e)).Bytes()
  {
  }
}
