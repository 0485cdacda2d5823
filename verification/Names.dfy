/** The names TcpServer::newConnection gives its connections, and why they are distinct keys. */
module Names {

  const BUFFER_SIZE := 64
  const INT_MAX := 0x7fff_ffff

  function Digit(d: nat): char
    requires d < 10
  {
    '0' + d as char
  }

  /** `%d` for a non-negative int. */
  function Decimal(n: nat): (s: string)
    ensures s != [] && (n < 10 <==> |s| == 1)
  {
    if n < 10 then [Digit(n)] else Decimal(n / 10) + [Digit(n % 10)]
  }

  function Pow10(k: nat): nat { if k == 0 then 1 else 10 * Pow10(k - 1) }

  /** `snprintf` keeps at most one byte less than the buffer. */
  function Printed(s: string): string {
    if |s| < BUFFER_SIZE then s else s[..BUFFER_SIZE - 1]
  }

  function Suffix(ipPort: string, id: nat): string {
    "-" + ipPort + "#" + Decimal(id)
  }

  function ConnName(server: string, ipPort: string, id: nat): string {
    server + Printed(Suffix(ipPort, id))
  }

  /** The number that a string of decimal digits denotes. */
  function Value(s: string): int {
    if s == [] then 0 else 10 * Value(s[..|s|-1]) + (s[|s|-1] as int - '0' as int)
  }

  /** Reading back what was printed gives the number, and what is printed are digits. */
  lemma {:induction false} DecimalValue(n: nat)
    ensures Value(Decimal(n)) == n
    ensures forall i :: 0 <= i < |Decimal(n)| ==> '0' <= Decimal(n)[i] <= '9'
    ensures n > 0 ==> Decimal(n)[0] != '0'
  {
    var s := Decimal(n);
    assert s[|s|-1] == Digit(n % 10);
    if n >= 10 {
      DecimalValue(n / 10);
      assert s[..|s|-1] == Decimal(n / 10);
    } else {
      assert s[..0] == [];
    }
  }

  lemma {:induction false} DecimalInjective(a: nat, b: nat)
    requires Decimal(a) == Decimal(b)
    ensures a == b
  {
    var s, t := Decimal(a), Decimal(b);
    assert s[|s|-1] == Digit(a % 10);
    assert t[|t|-1] == Digit(b % 10);
    assert a % 10 == b % 10;
    if a >= 10 && b >= 10 {
      assert s[..|s|-1] == Decimal(a / 10);
      assert t[..|t|-1] == Decimal(b / 10);
      DecimalInjective(a / 10, b / 10);
    }
  }

  /** A number below 10^k prints in at most k digits. */
  lemma {:induction false} DecimalLength(n: nat, k: nat)
    requires k > 0 && n < Pow10(k)
    ensures |Decimal(n)| <= k
  {
    if n >= 10 {
      assert Pow10(1) == 10 * Pow10(0);
      DecimalLength(n / 10, k - 1);
    }
  }

  /** An IPv4 address with its port has at most 21 characters, so no name is ever cut off ... */
  lemma NameFits(ipPort: string, id: nat)
    requires |ipPort| <= 21 && id <= INT_MAX
    ensures |Suffix(ipPort, id)| < BUFFER_SIZE
  {
    assert Pow10(5) == 100000 && Pow10(10) == 100000 * 100000 by {
      assert Pow10(2) == 100 && Pow10(3) == 1000 && Pow10(4) == 10000;
      assert Pow10(6) == 1000000 && Pow10(7) == 10000000 && Pow10(8) == 100000000 && Pow10(9) == 1000000000;
    }
    DecimalLength(id, 10);
  }

  /** ... and two connections of a server never share a name. */
  lemma NamesDistinct(server: string, ipPort: string, a: nat, b: nat)
    requires |ipPort| <= 21 && a <= INT_MAX && b <= INT_MAX
    requires ConnName(server, ipPort, a) == ConnName(server, ipPort, b)
    ensures a == b
  {
    NameFits(ipPort, a);
    NameFits(ipPort, b);
    var prefix := server + ("-" + ipPort + "#");
    assert ConnName(server, ipPort, a) == prefix + Decimal(a);
    assert ConnName(server, ipPort, b) == prefix + Decimal(b);
    assert Decimal(a) == (prefix + Decimal(a))[|prefix|..];
    assert Decimal(b) == (prefix + Decimal(b))[|prefix|..];
    DecimalInjective(a, b);
  }
}
