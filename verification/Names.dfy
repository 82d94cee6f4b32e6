/** TcpServer.cpp, connection names: "name-ip:port#id", its tail printed with `snprintf` into 64 bytes. */
module Names {
  const BUF_SIZE: nat := 64
  const INT_MAX: nat := 0x7fff_ffff

  function Digit(d: nat): char
    requires d < 10
  {
    ['0', '1', '2', '3', '4', '5', '6', '7', '8', '9'][d]
  }

  /** `%d` of a non-negative number. */
  function Decimal(n: nat): string {
    (if n < 10 then [] else Decimal(n / 10)) + [Digit(n % 10)]
  }

  /** `snprintf` into a buffer keeps what fits before the terminating zero. */
  function Printed(s: string): string {
    if |s| <= BUF_SIZE - 1 then s else s[..BUF_SIZE - 1]
  }

  function Suffix(ipPort: string, id: nat): string {
    "-" + ipPort + "#" + Decimal(id)
  }

  function ConnName(name: string, ipPort: string, id: nat): string {
    name + Printed(Suffix(ipPort, id))
  }

  lemma {:induction false} DecimalInjective(a: nat, b: nat)
    requires Decimal(a) == Decimal(b)
    ensures a == b
    decreases a
  {
    var x, y := Decimal(a), Decimal(b);
    assert x[|x| - 1] == Digit(a % 10) && y[|y| - 1] == Digit(b % 10);
    assert a % 10 == b % 10;
    if a >= 10 && b >= 10 {
      assert x[..|x| - 1] == Decimal(a / 10) && y[..|y| - 1] == Decimal(b / 10);
      DecimalInjective(a / 10, b / 10);
    } else {
      assert |Decimal(a / 10)| >= 1 && |Decimal(b / 10)| >= 1;
    }
  }

  function DigitValue(c: char): int {
    c as int - '0' as int
  }

  /** The number a numeral stands for. */
  function Numeral(s: string): int {
    if s == [] then 0 else 10 * Numeral(s[..|s| - 1]) + DigitValue(s[|s| - 1])
  }

  /** What is printed is the decimal numeral of the number, in digits only and without leading zeros. */
  lemma {:induction false} DecimalIsNumeral(n: nat)
    ensures Numeral(Decimal(n)) == n
    ensures forall c | c in Decimal(n) :: '0' <= c <= '9'
    ensures Decimal(n) != [] && (n > 0 ==> Decimal(n)[0] != '0')
    decreases n
  {
    var s := Decimal(n);
    assert DigitValue(Digit(n % 10)) == n % 10;
    if n < 10 {
      assert s == [Digit(n)] && s[..0] == [];
    } else {
      DecimalIsNumeral(n / 10);
      assert s[..|s| - 1] == Decimal(n / 10) && s[0] == Decimal(n / 10)[0];
    }
  }

  function Pow10(k: nat): nat {
    if k == 0 then 1 else 10 * Pow10(k - 1)
  }

  lemma {:induction false} DecimalLength(n: nat, k: nat)
    requires k > 0
    ensures n < Pow10(k) ==> |Decimal(n)| <= k
    ensures n >= Pow10(k) ==> |Decimal(n)| > k
    decreases k
  {
    if k > 1 {
      DecimalLength(n / 10, k - 1);
    } else {
      assert Pow10(1) == 10 * Pow10(0) == 10;
      if n >= 10 {
        assert |Decimal(n / 10)| >= 1;
      }
    }
  }

  lemma Pow10Values()
    ensures Pow10(8) == 100_000_000 && Pow10(10) == 10_000_000_000
  {
    assert Pow10(2) == 100;
    assert Pow10(4) == 10_000;
    assert Pow10(6) == 1_000_000;
    assert Pow10(8) == 100_000_000;
  }

  /** Nothing is cut off while the address is short enough. */
  lemma NotTruncated(ipPort: string, id: nat)
    requires |ipPort| <= 51 && id <= INT_MAX
    ensures Printed(Suffix(ipPort, id)) == Suffix(ipPort, id)
  {
    Pow10Values();
    DecimalLength(id, 10);
  }

  /** A name is the server's name, a hyphen, the address, a hash and the numeral of the identifier. */
  lemma NameReads(name: string, ipPort: string, id: nat)
    requires |ipPort| <= 51 && id <= INT_MAX
    ensures var s, n, m := ConnName(name, ipPort, id), |name|, |ipPort|;
            && |s| > n + m + 2 && s[..n] == name && s[n] == '-' && s[n + 1..n + 1 + m] == ipPort && s[n + 1 + m] == '#'
            && Numeral(s[n + m + 2..]) == id
  {
    hide Decimal, Numeral, Printed;
    NotTruncated(ipPort, id);
    DecimalIsNumeral(id);
    assert ConnName(name, ipPort, id) == name + "-" + ipPort + "#" + Decimal(id);
    assert ConnName(name, ipPort, id)[|name| + |ipPort| + 2..] == Decimal(id);
  }

  /** Names of different connections differ. */
  lemma NamesDistinct(name: string, ipPort: string, a: nat, b: nat)
    requires |ipPort| <= 51 && a <= INT_MAX && b <= INT_MAX
    requires ConnName(name, ipPort, a) == ConnName(name, ipPort, b)
    ensures a == b
  {
    NotTruncated(ipPort, a);
    NotTruncated(ipPort, b);
    var prefix := "-" + ipPort + "#";
    assert ConnName(name, ipPort, a)[|name| + |prefix|..] == Decimal(a);
    assert ConnName(name, ipPort, b)[|name| + |prefix|..] == Decimal(b);
    DecimalInjective(a, b);
  }

  ghost predicate AllDistinct(name: string, ipPort: string) {
    forall a: nat, b: nat | a <= INT_MAX && b <= INT_MAX && ConnName(name, ipPort, a) == ConnName(name, ipPort, b) ::
      a == b
  }

  lemma LongAddressCollides(name: string, ipPort: string)
    requires |ipPort| > 51
    ensures ConnName(name, ipPort, 2_000_000_000) == ConnName(name, ipPort, 2_000_000_001)
  {
    var a, b, head := 2_000_000_000, 2_000_000_001, Decimal(200_000_000);
    Pow10Values();
    DecimalLength(200_000_000, 8);
    var common := "-" + ipPort + "#" + head;
    assert Decimal(a) == head + [Digit(0)] && Decimal(b) == head + [Digit(1)];
    assert Suffix(ipPort, a) == common + [Digit(0)] && Suffix(ipPort, b) == common + [Digit(1)];
    assert Suffix(ipPort, a)[..BUF_SIZE - 1] == common[..BUF_SIZE - 1] == Suffix(ipPort, b)[..BUF_SIZE - 1];
  }

  /** All identifiers that fit in an `int` get different names exactly when the printed address has at most
      51 characters; an IPv4 address with its port has at most 21. */
  lemma NamesDistinctIff(name: string, ipPort: string)
    ensures AllDistinct(name, ipPort) <==> |ipPort| <= 51
  {
    if |ipPort| <= 51 {
      forall a: nat, b: nat | a <= INT_MAX && b <= INT_MAX && ConnName(name, ipPort, a) == ConnName(name, ipPort, b)
        ensures a == b
      {
        NamesDistinct(name, ipPort, a, b);
      }
    } else {
      LongAddressCollides(name, ipPort);
    }
  }
}
