/** The I/O the compute layer sees: an `io.Writer` for the printers and a
    `net.Conn` for the request loop. What the peer sends and whether each
    write succeeds are given in advance as scripts. */
module Streams {
  import opened Errors

  datatype ReadErr = NoReadError | EOF | ReadFailed

  /** What one `Read` call delivers: the bytes and the error beside them. */
  datatype ReadEvent = ReadEvent(data: string, err: ReadErr)

  /** Whether the next write of a script of write outcomes fails. */
  predicate NextFails(outcomes: seq<bool>)
  {
    |outcomes| > 0 && outcomes[0]
  }

  /** The script after one write; once it is used up, writes succeed. */
  function Tail(outcomes: seq<bool>): seq<bool>
  {
    if outcomes == [] then [] else outcomes[1..]
  }

  class Stream {
    /** The reads still to come, in order; after the last one the peer is gone. */
    var input: seq<ReadEvent>
    /** The outcome of each coming write: true when that write fails. */
    var outcomes: seq<bool>
    /** Everything written successfully so far. */
    var out: string
    /** The number of `Write` calls made. */
    var writes: nat

    constructor (input: seq<ReadEvent>, outcomes: seq<bool>)
      ensures this.input == input && this.outcomes == outcomes
      ensures out == [] && writes == 0
    {
      this.input := input;
      this.outcomes := outcomes;
      out := [];
      writes := 0;
    }

    /** `Write(p)`: a failing write reports WriteFailed and writes nothing. */
    method Write(p: string) returns (err: Option<Error>)
      modifies this`outcomes, this`out, this`writes
      ensures writes == old(writes) + 1
      ensures outcomes == Tail(old(outcomes))
      ensures err == if NextFails(old(outcomes)) then Some(WriteFailed) else None
      ensures out == if err.Some? then old(out) else old(out) + p
    {
      if NextFails(outcomes) {
        err := Some(WriteFailed);
      } else {
        err := None;
        out := out + p;
      }
      outcomes := Tail(outcomes);
      writes := writes + 1;
    }

    /** `Read(buf)`: copies the next event's bytes into `buf`. What does not
        fit stays for the next read; once the script is used up, the read
        reports EOF. */
    method Read(buf: array<char>) returns (count: nat, err: ReadErr)
      requires buf.Length > 0
      modifies this`input, buf
      ensures count <= buf.Length
      ensures old(input) == [] ==> count == 0 && err == EOF && input == []
      ensures old(input) != [] && |old(input)[0].data| <= buf.Length ==>
        && count == |old(input)[0].data|
        && buf[..count] == old(input)[0].data
        && err == old(input)[0].err
        && input == old(input)[1..]
      ensures old(input) != [] && |old(input)[0].data| > buf.Length ==>
        && count == buf.Length
        && buf[..] == old(input)[0].data[..buf.Length]
        && err == NoReadError
        && input == [ReadEvent(old(input)[0].data[buf.Length..], old(input)[0].err)] + old(input)[1..]
    {
      if input == [] {
        return 0, EOF;
      }
      var ev := input[0];
      count := if |ev.data| <= buf.Length then |ev.data| else buf.Length;
      var i := 0;
      while i < count
        modifies buf
        invariant 0 <= i <= count
        invariant buf[..i] == ev.data[..i]
      {
        buf[i] := ev.data[i];
        i := i + 1;
      }
      assert buf[..count] == ev.data[..count];
      if count == |ev.data| {
        err := ev.err;
        input := input[1..];
      } else {
        assert buf[..] == buf[..count];
        err := NoReadError;
        input := [ReadEvent(ev.data[count..], ev.err)] + input[1..];
      }
    }
  }
}
