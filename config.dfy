/** The configuration check of config/config.go: the server port must be a
    decimal 64-bit integer in 1..65535, and at least one client must be
    allowed. */
module Config {
  import opened Errors

  datatype Server = Server(address: string, port: string, maxClients: int)

  datatype Config = Config(debug: bool, server: Server)

  /** The four errors of `validate`, in the order it checks them. */
  datatype ConfigError = PortRequired | PortNotNumber | PortOutOfRange | MaxClientsTooSmall

  /** The text of each error `validate` returns. */
  function ConfigMessage(e: ConfigError): (m: string)
    ensures m != ""
  {
    match e
    case PortRequired => "server port is required"
    case PortNotNumber => "server port must be a number"
    case PortOutOfRange => "server port must be between 1 and 65535"
    case MaxClientsTooSmall => "server max clients must be greater than 0"
  }

  /** No two configuration errors share a text. */
  lemma ConfigMessageInjective(e1: ConfigError, e2: ConfigError)
    requires ConfigMessage(e1) == ConfigMessage(e2)
    ensures e1 == e2
  {
  }

  const MinInt64: int := -0x8000_0000_0000_0000
  const MaxInt64: int := 0x7FFF_FFFF_FFFF_FFFF

  predicate IsDigit(c: char)
  {
    '0' <= c <= '9'
  }

  predicate AllDigits(s: string)
  {
    forall i :: 0 <= i < |s| ==> IsDigit(s[i])
  }

  /** The number a string of decimal digits denotes, most significant first. */
  function DigitsValue(s: string): nat
    requires AllDigits(s)
  {
    if s == [] then 0 else DigitsValue(s[..|s| - 1]) * 10 + (s[|s| - 1] as int - '0' as int)
  }

  predicate IsSign(c: char)
  {
    c == '+' || c == '-'
  }

  /** The string without its sign character, if it has one. */
  function Magnitude(s: string): (m: string)
    ensures |m| <= |s| && (m == s || (IsSign(s[0]) && m == s[1..]))
  {
    if s != [] && IsSign(s[0]) then s[1..] else s
  }

  /** The number a sign and a string of decimal digits denote. */
  function SignedValue(s: string): int
    requires AllDigits(Magnitude(s))
  {
    var v: int := DigitsValue(Magnitude(s));
    if s != [] && s[0] == '-' then -v else v
  }

  /** `strconv.ParseInt(s, 10, 64)`: an optional sign, then one or more
      decimal digits; a syntax error or a value outside the 64-bit range
      gives no number. */
  function ParseInt64(s: string): (r: Option<int>)
    ensures r.Some? ==> MinInt64 <= r.value <= MaxInt64
    ensures s == [] ==> r == None
    ensures r.Some? <==>
      && Magnitude(s) != [] && AllDigits(Magnitude(s))
      && MinInt64 <= SignedValue(s) <= MaxInt64
    ensures r.Some? ==> r.value == SignedValue(s)
  {
    if s == [] then None
    else
      var neg := s[0] == '-';
      var digits := if s[0] == '+' || s[0] == '-' then s[1..] else s;
      if digits == [] || !AllDigits(digits) then None
      else
        var v: int := DigitsValue(digits);
        var n := if neg then -v else v;
        if n < MinInt64 || n > MaxInt64 then None else Some(n)
  }

  /** A digit string keeps its value when a zero is put in front of it. */
  lemma {:induction false} DigitsValueLeadingZero(d: string)
    requires AllDigits(d)
    ensures AllDigits("0" + d) && DigitsValue("0" + d) == DigitsValue(d)
  {
    var z := "0" + d;
    assert AllDigits(z) by {
      forall i | 0 <= i < |z|
        ensures IsDigit(z[i])
      {
        if i > 0 {
          assert z[i] == d[i - 1];
        }
      }
    }
    if d != [] {
      var t := d[..|d| - 1];
      assert z[..|z| - 1] == "0" + t;
      DigitsValueLeadingZero(t);
    }
  }

  /** Leading zeros do not change the number: "08080" is 8080. */
  lemma LeadingZeroIgnored(d: string)
    requires d != [] && AllDigits(d)
    ensures ParseInt64("0" + d) == ParseInt64(d)
  {
    DigitsValueLeadingZero(d);
    assert Magnitude("0" + d) == "0" + d;
    assert Magnitude(d) == d;
  }

  /** A '+' in front of an unsigned string changes nothing: "+8080" is 8080. */
  lemma PlusSignIgnored(d: string)
    requires d == [] || !IsSign(d[0])
    ensures ParseInt64("+" + d) == ParseInt64(d)
  {
    assert Magnitude("+" + d) == d;
  }

  /** A character that is neither a digit nor a leading sign makes the
      string no number: "8x0" is refused. */
  lemma NonDigitRejected(s: string, i: nat)
    requires i < |s| && !IsDigit(s[i]) && !(i == 0 && IsSign(s[i]))
    ensures ParseInt64(s) == None
  {
    var m := Magnitude(s);
    if m != s {
      assert m[i - 1] == s[i];
    }
  }

  /** The port of the test table, written as "8080". */
  lemma Parse8080()
    ensures ParseInt64("8080") == Some(8080)
  {
    assert FormatInt(8080) == "8080" by {
      assert FormatNat(8080) == FormatNat(808) + "0";
      assert FormatNat(808) == FormatNat(80) + "8";
      assert FormatNat(80) == FormatNat(8) + "0";
    }
    ParseFormat(8080);
  }

  /** A leading '+' and leading zeros are accepted, as strconv.ParseInt does. */
  lemma ParseInt64SignExamples()
    ensures ParseInt64("+8080") == Some(8080)
    ensures ParseInt64("08080") == Some(8080)
  {
    Parse8080();
    PlusSignIgnored("8080");
    assert "+8080" == "+" + "8080";
    LeadingZeroIgnored("8080");
    assert "08080" == "0" + "8080";
  }

  /** A signed zero is a number; a lone sign, a second sign and a letter are not. */
  lemma ParseInt64RejectExamples()
    ensures ParseInt64("-0") == Some(0)
    ensures ParseInt64("8x0") == None
    ensures ParseInt64("+") == None
    ensures ParseInt64("+-1") == None
  {
    assert Magnitude("-0") == "0";
    NonDigitRejected("8x0", 1);
    NonDigitRejected("+-1", 1);
  }

  /** `Config.validate`: the port is checked first (present, a number, in
      range), then the number of clients. */
  function Validate(c: Config): (r: Option<ConfigError>)
    ensures r == None <==>
      && ParseInt64(c.server.port).Some?
      && 1 <= ParseInt64(c.server.port).value <= 65535
      && c.server.maxClients >= 1
    ensures r == Some(PortRequired) <==> c.server.port == ""
    ensures r == Some(PortNotNumber) <==> c.server.port != "" && ParseInt64(c.server.port).None?
    ensures r == Some(PortOutOfRange) <==>
      ParseInt64(c.server.port).Some? && !(1 <= ParseInt64(c.server.port).value <= 65535)
    ensures r == Some(MaxClientsTooSmall) <==>
      && ParseInt64(c.server.port).Some? && 1 <= ParseInt64(c.server.port).value <= 65535
      && c.server.maxClients < 1
  {
    if c.server.port == "" then Some(PortRequired)
    else
      match ParseInt64(c.server.port)
      case None => Some(PortNotNumber)
      case Some(port) =>
        if port < 1 || port > 65535 then Some(PortOutOfRange)
        else if c.server.maxClients < 1 then Some(MaxClientsTooSmall)
        else None
  }

  // ---------------------------------------------------------------------
  // The decimal rendering, the partner of ParseInt64
  // ---------------------------------------------------------------------

  function DigitChar(d: nat): char
    requires d < 10
  {
    ('0' as int + d) as char
  }

  /** The decimal digits of a natural number, without leading zeros. */
  function FormatNat(n: nat): (s: string)
    ensures s != [] && AllDigits(s)
  {
    if n < 10 then [DigitChar(n)] else FormatNat(n / 10) + [DigitChar(n % 10)]
  }

  /** `strconv.FormatInt(n, 10)`. */
  function FormatInt(n: int): string
  {
    if n < 0 then "-" + FormatNat(-n) else FormatNat(n)
  }

  lemma {:induction false} DigitsValueFormat(n: nat)
    ensures DigitsValue(FormatNat(n)) == n
  {
    var s := FormatNat(n);
    if n >= 10 {
      DigitsValueFormat(n / 10);
      assert s[..|s| - 1] == FormatNat(n / 10);
    }
  }

  /** Every 64-bit integer, rendered in decimal, parses back to itself. */
  lemma ParseFormat(n: int)
    requires MinInt64 <= n <= MaxInt64
    ensures ParseInt64(FormatInt(n)) == Some(n)
  {
    if n < 0 {
      var d := FormatNat(-n);
      assert FormatInt(n) == "-" + d;
      assert ("-" + d)[0] == '-' && ("-" + d)[1..] == d;
      DigitsValueFormat(-n);
    } else {
      var d := FormatNat(n);
      assert IsDigit(d[0]);
      DigitsValueFormat(n);
    }
  }

  /** A port written in decimal is accepted exactly when it is in range and
      clients are allowed. */
  lemma ValidateFormattedPort(address: string, port: int, maxClients: int)
    requires MinInt64 <= port <= MaxInt64
    ensures Validate(Config(false, Server(address, FormatInt(port), maxClients))) == None
       <==> 1 <= port <= 65535 && maxClients >= 1
  {
    ParseFormat(port);
  }

  function Pow10(k: nat): nat
  {
    if k == 0 then 1 else 10 * Pow10(k - 1)
  }

  lemma {:induction false} Pow10Grows(j: nat, k: nat)
    requires j <= k
    ensures Pow10(j) <= Pow10(k)
    decreases k
  {
    if j < k {
      Pow10Grows(j, k - 1);
    }
  }

  /** A digit string without a leading zero is at least 10 to the power of
      its length less one. */
  lemma {:induction false} DigitsValueLowerBound(s: string)
    requires AllDigits(s) && |s| >= 1 && s[0] != '0'
    ensures DigitsValue(s) >= Pow10(|s| - 1)
  {
    var t := s[..|s| - 1];
    if |s| > 1 {
      assert t[0] == s[0];
      DigitsValueLowerBound(t);
    } else {
      assert t == [];
    }
  }

  /** Twenty or more digits without a leading zero do not fit in 64 bits:
      such a port is "not a number", not "out of range". */
  lemma WideNumberRejected(s: string)
    requires AllDigits(s) && |s| >= 20 && s[0] != '0'
    ensures ParseInt64(s) == None
  {
    DigitsValueLowerBound(s);
    Pow10Grows(19, |s| - 1);
    assert Pow10(4) == 10_000;
    assert Pow10(9) == 1_000_000_000;
    assert Pow10(19) == 10_000_000_000_000_000_000;
  }

  // The test table, its ports written as the strings `validate` reads.

  /** Port 8080: accepted with 10 clients, refused with none. */
  lemma ValidateTableExamples()
    ensures Validate(Config(false, Server("127.0.0.1", "8080", 10))) == None
    ensures Validate(Config(false, Server("127.0.0.1", "8080", 0))) == Some(MaxClientsTooSmall)
  {
    assert FormatInt(8080) == "8080" by {
      assert FormatNat(8080) == FormatNat(808) + "0";
      assert FormatNat(808) == FormatNat(80) + "8";
      assert FormatNat(80) == FormatNat(8) + "0";
    }
    ParseFormat(8080);
  }

  /** Ports -1 and 70000 are numbers outside the range. */
  lemma ValidateRangeExamples()
    ensures Validate(Config(false, Server("127.0.0.1", "-1", 10))) == Some(PortOutOfRange)
    ensures Validate(Config(false, Server("127.0.0.1", "70000", 10))) == Some(PortOutOfRange)
  {
    assert FormatInt(-1) == "-1";
    ParseFormat(-1);
    assert FormatInt(70000) == "70000" by {
      assert FormatNat(70000) == FormatNat(7000) + "0";
      assert FormatNat(7000) == FormatNat(700) + "0";
      assert FormatNat(700) == FormatNat(70) + "0";
      assert FormatNat(70) == FormatNat(7) + "0";
    }
    ParseFormat(70000);
  }

  /** The other error paths: an empty port and a non-number. */
  lemma ValidateErrorExamples()
    ensures Validate(Config(false, Server("127.0.0.1", "", 10))) == Some(PortRequired)
    ensures Validate(Config(false, Server("127.0.0.1", "80a", 10))) == Some(PortNotNumber)
  {
    assert !IsDigit("80a"[2]);
  }

  /** A port too wide for 64 bits is "not a number". */
  lemma ValidateWidePortExample()
    ensures Validate(Config(false, Server("127.0.0.1", "99999999999999999999", 10))) == Some(PortNotNumber)
  {
    var wide := "99999999999999999999";
    assert AllDigits(wide) by {
      forall i | 0 <= i < |wide|
        ensures IsDigit(wide[i])
      {
      }
    }
    WideNumberRejected(wide);
  }
}
