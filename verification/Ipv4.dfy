/** IPv4 addresses, blocks (section 3.1 of RFC 4632) and dotted-quad text. */
module Ipv4 {
  import opened Basics
  import Text

  const ADDRESS_SPACE: nat := 0x1_0000_0000

  type Address = a: nat | a < ADDRESS_SPACE

  function Pow2(n: nat): (r: nat)
    ensures r >= 1
  {
    if n == 0 then 1 else 2 * Pow2(n - 1)
  }

  type PrefixLength = p: nat | p <= 32

  /** An address with a prefix length; as in `ipnet`, the address may have host bits set. */
  datatype Net = Net(addr: Address, prefix: PrefixLength) {
    function Size(): (r: nat) ensures r >= 1 { Pow2(32 - prefix) }

    function Network(): (r: nat) ensures r <= addr {
      RemainderFits(addr, Size());
      addr - addr % Size()
    }

    function Broadcast(): nat { Network() + Size() - 1 }

    predicate Contains(ip: nat) { Network() <= ip <= Broadcast() }

    /** First and last of `hosts()`: network and broadcast are dropped below prefix 31. */
    function FirstHost(): nat { if prefix < 31 then Network() + 1 else Network() }

    function LastHost(): (r: nat) {
      Pow2Grows(32 - prefix);
      if prefix < 31 then Broadcast() - 1 else Broadcast()
    }
  }

  lemma RemainderFits(a: nat, s: nat)
    requires s >= 1
    ensures a % s <= a && a % s < s
  {
    if a < s {
      assert a % s == a;
    }
  }

  lemma {:induction false} Pow2Grows(n: nat)
    ensures n >= 2 ==> Pow2(n) >= 4
  {
    if n > 2 { Pow2Grows(n - 1); }
  }

  lemma {:induction false} Pow2Sum(a: nat, b: nat)
    ensures Pow2(a + b) == Pow2(a) * Pow2(b)
  {
    if a > 0 {
      Pow2Sum(a - 1, b);
      Doubled(Pow2(a - 1), Pow2(b));
    }
  }

  lemma Doubled(x: nat, y: nat)
    ensures (2 * x) * y == 2 * (x * y)
  {
  }

  ghost predicate Overlap(a: Net, b: Net) {
    exists ip: nat :: a.Contains(ip) && b.Contains(ip)
  }

  ghost predicate Within(inner: Net, outer: Net) {
    outer.Network() <= inner.Network() && inner.Broadcast() <= outer.Broadcast()
  }

  lemma RoundDown(a: nat, s: nat)
    requires s >= 1
    ensures a - a % s == a / s * s
  {
  }

  lemma Aligned(n: Net) returns (i: nat)
    ensures n.Network() == i * n.Size()
  {
    hide Pow2;
    var size := n.Size();
    RoundDown(n.addr, size);
    i := n.addr / size;
  }

  lemma MulLess(a: nat, b: nat, t: nat)
    requires a * t < b * t
    ensures a < b
  {
    if b <= a {
      MulMonotone(b, a, t);
    }
  }

  lemma MulMonotone(a: nat, b: nat, t: nat)
    requires a <= b
    ensures a * t <= b * t
  {
    assert b * t == a * t + (b - a) * t;
  }

  /** An interval [j*t, j*t+t) that meets [i*k*t, (i+1)*k*t) lies inside it. */
  lemma BlockInBlock(i: nat, k: nat, j: nat, t: nat, ip: nat)
    requires t >= 1 && k >= 1
    requires i * (k * t) <= ip < i * (k * t) + k * t
    requires j * t <= ip < j * t + t
    ensures i * (k * t) <= j * t && j * t + t <= i * (k * t) + k * t
  {
    assert i * (k * t) == (i * k) * t;
    assert (i * k) * t + k * t == (i * k + k) * t;
    MulLess((i * k), j + 1, t);
    MulLess(j, i * k + k, t);
    assert (j + 1) * t == j * t + t;
    MulMonotone(j + 1, i * k + k, t);
    MulMonotone(i * k, j, t);
  }

  /** Blocks that meet are nested: the one with the longer prefix lies inside the other. */
  lemma OverlapIsNesting(a: Net, b: Net)
    requires a.prefix <= b.prefix
    requires Overlap(a, b)
    ensures Within(b, a)
  {
    var ip: nat :| a.Contains(ip) && b.Contains(ip);
    var i := Aligned(a);
    var j := Aligned(b);
    var k := Pow2(b.prefix - a.prefix);
    Pow2Sum(b.prefix - a.prefix, 32 - b.prefix);
    assert a.Size() == k * b.Size();
    BlockInBlock(i, k, j, b.Size(), ip);
  }

  /** The two-sided network-address test is exactly address-range overlap. */
  lemma TwoSidedTestIsOverlap(a: Net, b: Net)
    ensures a.Contains(b.Network()) || b.Contains(a.Network()) <==> Overlap(a, b)
  {
    if a.Contains(b.Network()) { assert b.Contains(b.Network()); }
    if b.Contains(a.Network()) { assert a.Contains(a.Network()); }
    if Overlap(a, b) {
      if a.prefix <= b.prefix {
        OverlapIsNesting(a, b);
      } else {
        var ip: nat :| a.Contains(ip) && b.Contains(ip);
        assert b.Contains(ip) && a.Contains(ip);
        OverlapIsNesting(b, a);
      }
    }
  }

  /** A block never runs past the end of the address space. */
  lemma BroadcastIsAddress(n: Net)
    ensures n.Broadcast() < ADDRESS_SPACE
  {
    hide Pow2, Net.Network;
    Pow2Of32();
    Pow2Sum(n.prefix, 32 - n.prefix);
    var size, blocks := n.Size(), Pow2(n.prefix);
    var i := Aligned(n);
    MulLess(i, blocks, size);
    MulMonotone(i + 1, blocks, size);
    assert (i + 1) * size == i * size + size;
  }

  lemma Pow2Of32()
    ensures Pow2(32) == ADDRESS_SPACE
  {
    Pow2Sum(16, 16);
    Pow2Sum(8, 8);
    assert Pow2(8) == 256;
  }

  // --- Dotted-quad text ---------------------------------------------------

  function Digit(d: nat): char requires d < 10 { ('0' as int + d) as char }

  predicate IsDigit(c: char) { '0' <= c <= '9' }

  function Value(c: char): nat requires IsDigit(c) { c as int - '0' as int }

  function PrintOctet(n: nat): string
    requires n < 256
  {
    if n < 10 then [Digit(n)]
    else if n < 100 then [Digit(n / 10), Digit(n % 10)]
    else [Digit(n / 100), Digit(n / 10 % 10), Digit(n % 10)]
  }

  /** One to three digits, no leading zero, at most 255. */
  function ParseOctet(s: string): Option<nat> {
    if !(forall k :: 0 <= k < |s| ==> IsDigit(s[k])) then None
    else if |s| == 1 then Some(Value(s[0]))
    else if |s| == 2 && s[0] != '0' then Some(10 * Value(s[0]) + Value(s[1]))
    else if |s| == 3 && s[0] != '0' then Upto255(100 * Value(s[0]) + 10 * Value(s[1]) + Value(s[2]))
    else None
  }

  function Upto255(v: nat): Option<nat> { if v < 256 then Some(v) else None }

  function Octets(a: Address): (o: (nat, nat, nat, nat))
    ensures o.0 < 256 && o.1 < 256 && o.2 < 256 && o.3 < 256
    ensures ((o.0 * 256 + o.1) * 256 + o.2) * 256 + o.3 == a
  {
    var q1 := a / 256;
    var q2 := q1 / 256;
    (q2 / 256, q2 % 256, q1 % 256, a % 256)
  }

  function PrintAddress(a: Address): string {
    var o := Octets(a);
    Text.Join([PrintOctet(o.0), PrintOctet(o.1), PrintOctet(o.2), PrintOctet(o.3)], ".")
  }

  function ParseAddress(s: string): Option<Address> {
    var parts := Text.Split(s, '.');
    if |parts| != 4 then None
    else
      var a, b, c, d := ParseOctet(parts[0]), ParseOctet(parts[1]), ParseOctet(parts[2]), ParseOctet(parts[3]);
      if a.None? || b.None? || c.None? || d.None? then None
      else FromOctets(a.value, b.value, c.value, d.value)
  }

  function FromOctets(a: nat, b: nat, c: nat, d: nat): Option<Address> {
    var v := ((a * 256 + b) * 256 + c) * 256 + d;
    if v < ADDRESS_SPACE then Some(v) else None
  }

  lemma DigitValue(d: nat)
    requires d < 10
    ensures IsDigit(Digit(d)) && Value(Digit(d)) == d && (Digit(d) == '0' <==> d == 0) && Digit(d) != '.'
  {
  }

  lemma ValueDigit(c: char)
    requires IsDigit(c)
    ensures Value(c) < 10 && Digit(Value(c)) == c && (Value(c) == 0 <==> c == '0')
  {
  }

  lemma OctetRoundTrip(n: nat)
    requires n < 256
    ensures ParseOctet(PrintOctet(n)) == Some(n)
    ensures '.' !in PrintOctet(n)
  {
    hide Digit, Value, IsDigit;
    DigitValue(n % 10);
    DigitValue(n / 10 % 10);
    DigitValue(n / 100);
  }

  lemma ThreeDigits(a: nat, b: nat, c: nat)
    requires a < 10 && b < 10 && c < 10
    ensures var n := 100 * a + 10 * b + c; n / 100 == a && n / 10 % 10 == b && n % 10 == c
  {
    assert (100 * a + 10 * b + c) / 10 == 10 * a + b;
  }

  lemma OctetParseIsPrint(s: string, n: nat)
    requires ParseOctet(s) == Some(n)
    ensures n < 256 && PrintOctet(n) == s
  {
    hide Digit, Value, IsDigit;
    assert forall k :: 0 <= k < |s| ==> IsDigit(s[k]);
    ValueDigit(s[0]);
    if |s| == 1 {
      assert s == [s[0]];
    } else if |s| == 2 {
      ValueDigit(s[1]);
      assert s == [s[0], s[1]];
    } else {
      ValueDigit(s[1]);
      ValueDigit(s[2]);
      ThreeDigits(Value(s[0]), Value(s[1]), Value(s[2]));
      assert s == [s[0], s[1], s[2]];
    }
  }

  /** Printing and parsing addresses undo each other, so stored texts and addresses correspond one to one. */
  lemma AddressRoundTrip(a: Address)
    ensures ParseAddress(PrintAddress(a)) == Some(a)
  {
    var o := Octets(a);
    OctetRoundTrip(o.0); OctetRoundTrip(o.1); OctetRoundTrip(o.2); OctetRoundTrip(o.3);
    Text.SplitJoin([PrintOctet(o.0), PrintOctet(o.1), PrintOctet(o.2), PrintOctet(o.3)], '.');
  }

  lemma AddressParseIsPrint(s: string, a: Address)
    requires ParseAddress(s) == Some(a)
    ensures PrintAddress(a) == s
  {
    var parts := Text.Split(s, '.');
    var x, y, z, w := ParseOctet(parts[0]).value, ParseOctet(parts[1]).value, ParseOctet(parts[2]).value, ParseOctet(parts[3]).value;
    OctetParseIsPrint(parts[0], x);
    OctetParseIsPrint(parts[1], y);
    OctetParseIsPrint(parts[2], z);
    OctetParseIsPrint(parts[3], w);
    OctetsUnique(a, x, y, z, w);
    assert parts == [parts[0], parts[1], parts[2], parts[3]];
    Text.JoinSplit(s, '.');
  }

  lemma OctetsUnique(a: Address, x: nat, y: nat, z: nat, w: nat)
    requires x < 256 && y < 256 && z < 256 && w < 256
    requires a == ((x * 256 + y) * 256 + z) * 256 + w
    ensures Octets(a) == (x, y, z, w)
  {
    var q1 := a / 256;
    assert q1 == (x * 256 + y) * 256 + z;
    var q2 := q1 / 256;
    assert q2 == x * 256 + y;
  }
}
