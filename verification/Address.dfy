/**
 The address codec of the signaling server: `toIPAddress`, `toTCPAddress`,
 `parseIPAddress` and `parseTCPAddress`, on text. The server links its three
 maps only through this text, so everything else rests on the laws proved here.
 */
module Address {
  import opened Wrappers

  /** The meaning of an IP address text: a subnet and a suffix. */
  datatype Ip = Ip(subnet: string, suffix: nat)

  /** The meaning of an alias: an IP address and a port. */
  datatype Tcp = Tcp(ip: Ip, port: nat)

  // ---------------------------------------------------------------- text

  function Split(s: string, sep: char): (parts: seq<string>)
    ensures |parts| >= 1
  {
    if s == "" then [""]
    else
      Extend(s[0], sep, Split(s[1..], sep))
  }

  /** One more character in front of a text already split. */
  function Extend(c: char, sep: char, rest: seq<string>): (parts: seq<string>)
    requires |rest| >= 1
    ensures |parts| >= 1
  {
    if c == sep then [""] + rest else [[c] + rest[0]] + rest[1..]
  }

  function Join(parts: seq<string>, sep: char): string {
    if parts == [] then ""
    else if |parts| == 1 then parts[0]
    else parts[0] + [sep] + Join(parts[1..], sep)
  }

  predicate IsDigit(c: char) { '0' <= c <= '9' }

  function Decimal(n: nat): string {
    if n < 10 then ['0' + n as char] else Decimal(n / 10) + ['0' + (n % 10) as char]
  }

  function DigitPrefix(s: string): string {
    if s != "" && IsDigit(s[0]) then [s[0]] + DigitPrefix(s[1..]) else ""
  }

  function Value(digits: string): nat
    requires forall c | c in digits :: IsDigit(c)
  {
    if digits == "" then 0
    else
      var last := digits[|digits| - 1];
      assert IsDigit(last);
      10 * Value(digits[..|digits| - 1]) + (last as int - '0' as int)
  }

  lemma DigitPrefixIsDigits(s: string)
    ensures forall c | c in DigitPrefix(s) :: IsDigit(c)
  {}

  /** `parseInt`: the longest leading run of decimal digits; None stands for NaN. */
  function ParseInt(s: string): Option<nat> {
    DigitPrefixIsDigits(s);
    if DigitPrefix(s) == "" then None else Some(Value(DigitPrefix(s)))
  }

  /** NaN exactly when the text does not start with a digit. */
  lemma ParsesIff(s: string)
    ensures ParseInt(s).Some? <==> s != "" && IsDigit(s[0])
  {}

  // --------------------------------------------------- print and parse

  function ToIPAddress(subnet: string, suffix: nat): string {
    subnet + "." + Decimal(suffix)
  }

  function ToTCPAddress(ipAddress: string, port: nat): string {
    ipAddress + ":" + Decimal(port)
  }

  function ParseIPAddress(ipAddress: string): (string, Option<nat>) {
    var parts := Split(ipAddress, '.');
    (Join(if |parts| < 3 then parts else parts[..3], '.'), if |parts| > 3 then ParseInt(parts[3]) else None)
  }

  function ParseTCPAddress(tcpAddress: string): (string, Option<nat>) {
    var parts := Split(tcpAddress, ':');
    (parts[0], if |parts| > 1 then ParseInt(parts[1]) else None)
  }

  function PrintIp(i: Ip): string { ToIPAddress(i.subnet, i.suffix) }

  function PrintTcp(t: Tcp): string { ToTCPAddress(PrintIp(t.ip), t.port) }

  /** What the server takes an IP address text to mean, if it means anything. */
  function ReadIp(ipAddress: string): Option<Ip> {
    var (subnet, suffix) := ParseIPAddress(ipAddress);
    if suffix.Some? then Some(Ip(subnet, suffix.value)) else None
  }

  /** What the server takes an alias to mean, if it means anything. */
  function ReadTcp(tcpAddress: string): Option<Tcp> {
    var (ipAddress, port) := ParseTCPAddress(tcpAddress);
    var ip := ReadIp(ipAddress);
    if ip.Some? && port.Some? then Some(Tcp(ip.value, port.value)) else None
  }

  /** Three dot-separated parts, no colon. */
  predicate WellFormedSubnet(subnet: string) {
    |Split(subnet, '.')| == 3 && ':' !in subnet
  }

  // ------------------------------------------------------------- laws

  lemma {:induction false} SplitWithout(s: string, sep: char)
    requires sep !in s
    ensures Split(s, sep) == [s]
  {
    if s != "" {
      SplitWithout(s[1..], sep);
      assert [s[0]] + s[1..] == s;
    }
  }

  lemma SplitCons(c: char, s: string, sep: char)
    ensures Split([c] + s, sep) == Extend(c, sep, Split(s, sep))
  {
    assert ([c] + s)[1..] == s;
  }

  lemma ExtendConcat(c: char, sep: char, rest: seq<string>, tail: seq<string>)
    requires |rest| >= 1
    ensures Extend(c, sep, rest + tail) == Extend(c, sep, rest) + tail
  {}

  lemma {:induction false} SplitConcat(a: string, b: string, sep: char)
    ensures Split(a + [sep] + b, sep) == Split(a, sep) + Split(b, sep)
  {
    if a == "" {
      SplitCons(sep, b, sep);
      assert a + [sep] + b == [sep] + b;
    } else {
      var c, t := a[0], a[1..];
      SplitConcat(t, b, sep);
      assert a + [sep] + b == [c] + (t + [sep] + b);
      SplitCons(c, t + [sep] + b, sep);
      ExtendConcat(c, sep, Split(t, sep), Split(b, sep));
      assert a == [c] + t;
      SplitCons(c, t, sep);
    }
  }

  lemma {:induction false} SplitChars(s: string, sep: char)
    ensures forall i | 0 <= i < |Split(s, sep)| :: sep !in Split(s, sep)[i]
    ensures forall i, c | 0 <= i < |Split(s, sep)| && c in Split(s, sep)[i] :: c in s
  {
    if s != "" {
      SplitChars(s[1..], sep);
      assert s == [s[0]] + s[1..];
      forall i, c | 0 <= i < |Split(s, sep)| && c in Split(s, sep)[i] ensures c in s {
        var rest := Split(s[1..], sep);
        if i > 0 {
          assert Split(s, sep)[i] == if s[0] == sep then rest[i - 1] else rest[i];
        } else if c != s[0] {
          assert c in rest[0];
        }
      }
    }
  }

  lemma {:induction false} JoinSplit(s: string, sep: char)
    ensures Join(Split(s, sep), sep) == s
  {
    if s != "" {
      var rest := Split(s[1..], sep);
      JoinSplit(s[1..], sep);
      if s[0] == sep {
        assert ([""] + rest)[1..] == rest;
        assert s == "" + [sep] + s[1..];
      } else if |rest| == 1 {
        assert s == [s[0]] + rest[0];
      } else {
        assert ([[s[0]] + rest[0]] + rest[1..])[1..] == rest[1..];
        assert s == [s[0]] + rest[0] + [sep] + Join(rest[1..], sep);
      }
    }
  }

  lemma {:induction false} JoinChars(parts: seq<string>, sep: char, c: char)
    requires c in Join(parts, sep)
    ensures c == sep || exists i :: 0 <= i < |parts| && c in parts[i]
  {
    if |parts| > 1 {
      if c !in parts[0] && c != sep {
        JoinChars(parts[1..], sep, c);
        var i :| 0 <= i < |parts[1..]| && c in parts[1..][i];
        assert c in parts[i + 1];
      }
    } else if |parts| == 1 {
      assert c in parts[0];
    }
  }

  lemma {:induction false} SplitJoin(parts: seq<string>, sep: char)
    requires |parts| >= 1 && forall i | 0 <= i < |parts| :: sep !in parts[i]
    ensures Split(Join(parts, sep), sep) == parts
  {
    SplitWithout(parts[0], sep);
    if |parts| > 1 {
      SplitJoin(parts[1..], sep);
      SplitConcat(parts[0], Join(parts[1..], sep), sep);
    }
  }

  lemma {:induction false} DecimalDigits(n: nat)
    ensures |Decimal(n)| > 0 && forall c | c in Decimal(n) :: IsDigit(c)
    ensures Value(Decimal(n)) == n
  {
    if n >= 10 {
      DecimalDigits(n / 10);
      assert Decimal(n)[..|Decimal(n)| - 1] == Decimal(n / 10);
    }
  }

  /** A number as people write it: no leading zeros. */
  predicate IsNumeral(s: string) {
    s != "" && (forall c | c in s :: IsDigit(c)) && (s == "0" || s[0] != '0')
  }

  /** A printed number has no leading zeros. */
  lemma {:induction false} DecimalIsNumeral(n: nat)
    ensures IsNumeral(Decimal(n)) && Value(Decimal(n)) == n
    ensures n > 0 ==> Decimal(n)[0] != '0'
  {
    DecimalDigits(n);
    if n >= 10 {
      DecimalIsNumeral(n / 10);
      assert Decimal(n)[0] == Decimal(n / 10)[0];
    }
  }

  /** A number without leading zeros is printed as it was written. */
  lemma {:induction false} NumeralIsDecimal(s: string)
    requires IsNumeral(s)
    ensures Decimal(Value(s)) == s
    ensures s[0] != '0' ==> Value(s) > 0
  {
    var init, last := s[..|s| - 1], s[|s| - 1];
    assert s == init + [last] && IsDigit(last);
    var digit: nat := last as int - '0' as int;
    assert Value(s) == 10 * Value(init) + digit;
    hide Value;
    if init != "" {
      assert init[0] == s[0] && forall c | c in init :: c in s;
      NumeralIsDecimal(init);
      DecimalSnoc(Value(init), digit);
    } else {
      assert s == [last];
      NoDigits(init);
    }
  }

  lemma NoDigits(s: string)
    requires s == ""
    ensures Value(s) == 0
  {}

  lemma DecimalSnoc(n: nat, digit: nat)
    requires n > 0 && digit < 10
    ensures Decimal(10 * n + digit) == Decimal(n) + ['0' + digit as char]
  {
    assert (10 * n + digit) / 10 == n && (10 * n + digit) % 10 == digit;
  }

  lemma {:induction false} DigitPrefixStops(digits: string, rest: string)
    requires forall c | c in digits :: IsDigit(c)
    requires rest == "" || !IsDigit(rest[0])
    ensures DigitPrefix(digits + rest) == digits
  {
    if digits != "" {
      assert (digits + rest)[1..] == digits[1..] + rest;
      DigitPrefixStops(digits[1..], rest);
    } else {
      assert digits + rest == rest;
    }
  }

  /** parseInt reads back a printed number, whatever non-digit text follows it. */
  lemma ParseDecimal(n: nat, rest: string)
    requires rest == "" || !IsDigit(rest[0])
    ensures ParseInt(Decimal(n) + rest) == Some(n)
  {
    DecimalDigits(n);
    DigitPrefixStops(Decimal(n), rest);
  }

  /** Text without the separator lengthens the first part. */
  lemma {:induction false} SplitPrefix(a: string, b: string, sep: char)
    requires sep !in a
    ensures Split(a + b, sep)[0] == a + Split(b, sep)[0] && |Split(a + b, sep)| == |Split(b, sep)|
  {
    if a == "" {
      assert a + b == b;
    } else {
      SplitPrefix(a[1..], b, sep);
      assert a + b == [a[0]] + (a[1..] + b);
      SplitCons(a[0], a[1..] + b, sep);
      assert a == [a[0]] + a[1..];
    }
  }

  lemma SplitStart(s: string, sep: char)
    ensures s == "" ==> Split(s, sep)[0] == ""
    ensures s != "" ==> Split(s, sep)[0] == "" || Split(s, sep)[0][0] == s[0]
  {}

  lemma PrintedParts(subnet: string, suffix: nat, rest: string)
    ensures Split(ToIPAddress(subnet, suffix) + rest, '.') == Split(subnet, '.') + Split(Decimal(suffix) + rest, '.')
    ensures Split(Decimal(suffix) + rest, '.')[0] == Decimal(suffix) + Split(rest, '.')[0]
  {
    DecimalDigits(suffix);
    SplitPrefix(Decimal(suffix), rest, '.');
    SplitConcat(subnet, Decimal(suffix) + rest, '.');
    assert ToIPAddress(subnet, suffix) + rest == subnet + ['.'] + (Decimal(suffix) + rest);
  }

  /** With three parts in the subnet, whatever follows the suffix is invisible to parseIPAddress. */
  lemma ReadPrintedIp(i: Ip, rest: string)
    requires |Split(i.subnet, '.')| == 3
    requires rest == "" || !IsDigit(rest[0])
    ensures ReadIp(PrintIp(i) + rest) == Some(i)
  {
    PrintedParts(i.subnet, i.suffix, rest);
    JoinSplit(i.subnet, '.');
    SplitStart(rest, '.');
    ParseDecimal(i.suffix, Split(rest, '.')[0]);
    assert (Split(i.subnet, '.') + Split(Decimal(i.suffix) + rest, '.'))[..3] == Split(i.subnet, '.');
  }

  /** The subnet read from any text has at most three parts, no colon unless the text has one. */
  lemma ReadSubnetShape(a: string)
    ensures |Split(ParseIPAddress(a).0, '.')| <= 3
    ensures |Split(a, '.')| >= 3 ==> |Split(ParseIPAddress(a).0, '.')| == 3
    ensures ':' !in a ==> ':' !in ParseIPAddress(a).0
  {
    var parts := Split(a, '.');
    var kept := if |parts| < 3 then parts else parts[..3];
    SplitChars(a, '.');
    SplitJoin(kept, '.');
    if ':' in Join(kept, '.') {
      JoinChars(kept, '.', ':');
    }
  }

  /** Parsing undoes printing an IP address exactly for subnets of three parts. */
  lemma IpRoundTrip(i: Ip)
    ensures ReadIp(PrintIp(i)) == Some(i) <==> |Split(i.subnet, '.')| == 3
  {
    assert PrintIp(i) + "" == PrintIp(i);
    if |Split(i.subnet, '.')| == 3 {
      ReadPrintedIp(i, "");
    } else {
      PrintedParts(i.subnet, i.suffix, "");
      DecimalDigits(i.suffix);
      SplitPrefix(Decimal(i.suffix), "", '.');
      ReadSubnetShape(PrintIp(i));
    }
  }

  lemma SplitColon(t: Tcp)
    requires ':' !in t.ip.subnet
    ensures Split(PrintTcp(t), ':') == [PrintIp(t.ip), Decimal(t.port)]
  {
    DecimalDigits(t.ip.suffix);
    DecimalDigits(t.port);
    SplitWithout(PrintIp(t.ip), ':');
    SplitWithout(Decimal(t.port), ':');
    SplitConcat(PrintIp(t.ip), Decimal(t.port), ':');
    assert PrintTcp(t) == PrintIp(t.ip) + [':'] + Decimal(t.port);
  }

  lemma TcpParts(t: Tcp)
    requires ':' !in t.ip.subnet
    ensures ParseTCPAddress(PrintTcp(t)) == (PrintIp(t.ip), Some(t.port))
  {
    SplitColon(t);
    ParseDecimal(t.port, "");
    assert Decimal(t.port) + "" == Decimal(t.port);
  }

  /** Parsing undoes printing an alias exactly for well-formed subnets. */
  lemma TcpRoundTrip(t: Tcp)
    ensures ReadTcp(PrintTcp(t)) == Some(t) <==> WellFormedSubnet(t.ip.subnet)
  {
    if ':' !in t.ip.subnet {
      TcpParts(t);
      IpRoundTrip(t.ip);
    } else {
      var parts := Split(PrintTcp(t), ':');
      SplitChars(PrintTcp(t), ':');
      ReadSubnetShape(parts[0]);
    }
  }

  /** Distinct addresses print to distinct text. */
  lemma TcpInjective(t: Tcp, u: Tcp)
    requires WellFormedSubnet(t.ip.subnet) && WellFormedSubnet(u.ip.subnet)
    requires PrintTcp(t) == PrintTcp(u)
    ensures t == u
  {
    TcpRoundTrip(t);
    TcpRoundTrip(u);
  }

  /**
   The removal paths pass a whole alias to parseIPAddress: it reads the same
   subnet and suffix as the alias's IP part does.
   */
  lemma AliasReadAsIp(t: Tcp)
    requires WellFormedSubnet(t.ip.subnet)
    ensures ReadIp(PrintTcp(t)) == ReadIp(PrintIp(t.ip)) == Some(t.ip)
  {
    DecimalDigits(t.port);
    assert PrintTcp(t) == PrintIp(t.ip) + (":" + Decimal(t.port));
    ReadPrintedIp(t.ip, ":" + Decimal(t.port));
    IpRoundTrip(t.ip);
  }

  /** Whatever follows the port after another colon is invisible, too. */
  lemma ReadPrintedTcp(t: Tcp, rest: string)
    requires WellFormedSubnet(t.ip.subnet)
    ensures ReadTcp(PrintTcp(t) + ":" + rest) == Some(t)
  {
    TcpRoundTrip(t);
    SplitConcat(PrintTcp(t), rest, ':');
    assert PrintTcp(t) + ":" + rest == PrintTcp(t) + [':'] + rest;
    TcpParts(t);
    SplitColon(t);
  }

  // -------------------------------------------------------------- spelling

  /** Three parts, a dot, a number, a colon, a number. */
  predicate Spelled(s: string, subnet: string, suffix: string, port: string) {
    WellFormedSubnet(subnet) && IsNumeral(suffix) && IsNumeral(port) && s == subnet + "." + suffix + ":" + port
  }

  /** What is read from an alias spelled like that. */
  lemma SpelledReads(s: string, subnet: string, suffix: string, port: string)
    requires Spelled(s, subnet, suffix, port)
    ensures ReadTcp(s) == Some(Tcp(Ip(subnet, Value(suffix)), Value(port)))
    ensures PrintTcp(Tcp(Ip(subnet, Value(suffix)), Value(port))) == s
  {
    NumeralIsDecimal(suffix);
    NumeralIsDecimal(port);
    TcpRoundTrip(Tcp(Ip(subnet, Value(suffix)), Value(port)));
  }

  /** Printing what was read gives an alias back exactly when it is spelled like that. */
  lemma PrintsBackIff(s: string)
    ensures (ReadTcp(s).Some? && PrintTcp(ReadTcp(s).value) == s) <==>
              exists subnet, suffix, port :: Spelled(s, subnet, suffix, port)
  {
    if ReadTcp(s).Some? && PrintTcp(ReadTcp(s).value) == s {
      var t := ReadTcp(s).value;
      TcpRoundTrip(t);
      DecimalIsNumeral(t.ip.suffix);
      DecimalIsNumeral(t.port);
      assert Spelled(s, t.ip.subnet, Decimal(t.ip.suffix), Decimal(t.port));
    }
    if subnet, suffix, port :| Spelled(s, subnet, suffix, port) {
      SpelledReads(s, subnet, suffix, port);
    }
  }

  /** The same for an IP address without a port. */
  lemma IpPrintsBackIff(s: string)
    ensures (ReadIp(s).Some? && PrintIp(ReadIp(s).value) == s) <==>
              exists subnet, suffix :: |Split(subnet, '.')| == 3 && IsNumeral(suffix) && s == subnet + "." + suffix
  {
    if ReadIp(s).Some? && PrintIp(ReadIp(s).value) == s {
      var i := ReadIp(s).value;
      IpRoundTrip(i);
      DecimalIsNumeral(i.suffix);
      assert s == i.subnet + "." + Decimal(i.suffix);
    }
    if subnet, suffix :| |Split(subnet, '.')| == 3 && IsNumeral(suffix) && s == subnet + "." + suffix {
      NumeralIsDecimal(suffix);
      IpRoundTrip(Ip(subnet, Value(suffix)));
    }
  }
}
