/** Connection names (TcpServer::newConnection): the server's name and "-ip:port#id". */
module Names {

  /** The longest dotted address with a port, and the largest counter value. */
  const IP_PORT_MAX: nat := 21

  const INT_MAX: nat := 0x7fff_ffff

  function Digit(d: nat): char
    requires d < 10
  {
    "0123456789"[d]
  }

  /** %d for a non-negative number. */
  function Decimal(n: nat): string
    decreases n
  {
    if n < 10 then [Digit(n)] else Decimal(n / 10) + [Digit(n % 10)]
  }

  /** snprintf into char[64]: at most 63 characters arrive. */
  function Buf64(s: string): string {
    if |s| <= 63 then s else s[..63]
  }

  function ConnName(server: string, ipPort: string, id: nat): string {
    server + Buf64("-" + ipPort + "#" + Decimal(id))
  }

  lemma DecimalNonEmpty(n: nat)
    ensures |Decimal(n)| >= 1
  {
  }

  lemma LastDigit(n: nat)
    ensures var x := Decimal(n);
      && |x| >= 1 && x[|x| - 1] == Digit(n % 10)
      && (n >= 10 ==> |x| >= 2 && x[..|x| - 1] == Decimal(n / 10))
      && (n < 10 ==> |x| == 1)
  {
    DecimalNonEmpty(n / 10);
  }

  /** Reading a text of decimal digits. */
  function Value(s: string): int {
    if s == [] then 0 else 10 * Value(s[..|s| - 1]) + (s[|s| - 1] as int - '0' as int)
  }

  /** The text is the number's: only digits, reading it gives the number, and there is no leading zero. */
  lemma {:induction false} DecimalReadsBack(n: nat)
    ensures var s := Decimal(n);
      && Value(s) == n && (n > 0 ==> s[0] != '0')
      && forall i :: 0 <= i < |s| ==> '0' <= s[i] <= '9'
    decreases n
  {
    var s := Decimal(n);
    LastDigit(n);
    assert Digit(n % 10) as int == '0' as int + n % 10;
    if n >= 10 {
      DecimalReadsBack(n / 10);
      var front := s[..|s| - 1];
      assert front == Decimal(n / 10);
      forall i | 0 <= i < |s|
        ensures '0' <= s[i] <= '9'
      {
        assert i < |front| ==> s[i] == front[i];
      }
      assert s[0] == front[0];
    } else {
      assert s[..0] == [];
    }
  }

  lemma {:induction false} DecimalInjective(a: nat, b: nat)
    requires Decimal(a) == Decimal(b)
    ensures a == b
    decreases a
  {
    LastDigit(a);
    LastDigit(b);
    assert a % 10 == b % 10;
    if a >= 10 {
      DecimalInjective(a / 10, b / 10);
    }
  }

  function Power10(digits: nat): nat {
    if digits == 0 then 1 else 10 * Power10(digits - 1)
  }

  lemma {:induction false} DecimalLength(n: nat, digits: nat)
    requires digits >= 1 && n < Power10(digits)
    ensures |Decimal(n)| <= digits
    decreases digits
  {
    if n >= 10 {
      DecimalLength(n / 10, digits - 1);
    }
  }

  lemma PrefixCancels(p: string, x: string, y: string)
    requires p + x == p + y
    ensures x == y
  {
    assert x == (p + x)[|p|..];
    assert y == (p + y)[|p|..];
  }

  /** The buffer keeps a prefix of at most 63 characters, and all of a text that fits. */
  lemma BufferKeepsPrefix(s: string)
    ensures Buf64(s) <= s && |Buf64(s)| == if |s| < 63 then |s| else 63
  {
  }

  /** Nothing is cut off: 1 + 21 + 1 + 10 characters fit. */
  lemma NameFits(server: string, ipPort: string, id: nat)
    requires |ipPort| <= IP_PORT_MAX && id <= INT_MAX
    ensures ConnName(server, ipPort, id) == server + (("-" + ipPort + "#") + Decimal(id))
  {
    assert Power10(10) == 10_000_000_000;
    DecimalLength(id, 10);
  }

  /** Connections of one server never share a name, so its map has one entry for each of them. */
  lemma NamesAreDistinct(server: string, ipPort: string, a: nat, b: nat)
    requires |ipPort| <= IP_PORT_MAX && a <= INT_MAX && b <= INT_MAX
    requires ConnName(server, ipPort, a) == ConnName(server, ipPort, b)
    ensures a == b
  {
    var fixed := "-" + ipPort + "#";
    NameFits(server, ipPort, a);
    NameFits(server, ipPort, b);
    PrefixCancels(server, fixed + Decimal(a), fixed + Decimal(b));
    PrefixCancels(fixed, Decimal(a), Decimal(b));
    DecimalInjective(a, b);
  }

  /** The numbers below `next` whose names are among `names`. */
  function Ids(server: string, ipPort: string, names: set<string>, next: nat): set<nat> {
    set i: nat | i < next && i >= 1 && ConnName(server, ipPort, i) in names
  }

  /** Every name was given out for a number below `next`. */
  ghost predicate AllNamed(server: string, ipPort: string, names: set<string>, next: nat) {
    forall k :: k in names ==> exists i :: 1 <= i < next && k == ConnName(server, ipPort, i)
  }

  lemma {:induction false} NewNameIsNew(server: string, ipPort: string, names: set<string>, next: nat)
    requires |ipPort| <= IP_PORT_MAX && 1 <= next <= INT_MAX && AllNamed(server, ipPort, names, next)
    ensures ConnName(server, ipPort, next) !in names
    ensures AllNamed(server, ipPort, names + {ConnName(server, ipPort, next)}, next + 1)
    ensures Ids(server, ipPort, names + {ConnName(server, ipPort, next)}, next + 1)
         == Ids(server, ipPort, names, next) + {next}
  {
    forall i: nat | i < next && ConnName(server, ipPort, i) == ConnName(server, ipPort, next)
      ensures false
    {
      NamesAreDistinct(server, ipPort, i, next);
    }
  }

  lemma {:induction false} ErasingRemovesOne(
    server: string, ipPort: string, names: set<string>, next: nat, id: nat)
    requires |ipPort| <= IP_PORT_MAX && 1 <= id < next <= INT_MAX + 1
    ensures Ids(server, ipPort, names - {ConnName(server, ipPort, id)}, next)
         == Ids(server, ipPort, names, next) - {id}
  {
    forall i: nat | i < next && ConnName(server, ipPort, i) == ConnName(server, ipPort, id)
      ensures i == id
    {
      NamesAreDistinct(server, ipPort, i, id);
    }
  }
}
