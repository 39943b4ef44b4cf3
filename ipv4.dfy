/**
 * IPv4 addresses and networks as far as the bootstrap uses them: the
 * service network's `nth(1)` and the dotted-decimal `Display` of an
 * `Ipv4Addr`, with a parser proving the rendering unambiguous.
 */
module Ipv4 {
  import opened Options
  import opened Strings

  const AddressCount: nat := 0x1_0000_0000

  /** An IPv4 address as its 32-bit value (`u32::from(Ipv4Addr)`). */
  type Addr = a: nat | a < 0x1_0000_0000

  type PrefixLen = p: nat | p <= 32

  /** `IpNetwork`: an IPv4 network, or an IPv6 one whose contents the bootstrap ignores. */
  datatype IpNetwork = V4(ip: Addr, prefix: PrefixLen) | V6(ip6: nat, prefix6: nat)

  /** `Ipv4Addr::LOCALHOST`, 127.0.0.1. */
  const Localhost: Addr := 0x7F00_0001

  function Pow2(k: nat): (r: nat)
    ensures r >= 1
  {
    if k == 0 then 1 else 2 * Pow2(k - 1)
  }

  lemma {:induction false} Pow2Add(a: nat, b: nat)
    ensures Pow2(a) * Pow2(b) == Pow2(a + b)
    decreases a
  {
    if a > 0 {
      Pow2Add(a - 1, b);
    }
  }

  /** The number of addresses in a network with this prefix length. */
  function Size(prefix: PrefixLen): (n: nat)
    ensures 1 <= n && n * Pow2(prefix) == AddressCount
    ensures n == 1 <==> prefix == 32
  {
    SizeFacts(prefix);
    Pow2(32 - prefix)
  }

  lemma SizeFacts(prefix: PrefixLen)
    ensures Pow2(32 - prefix) * Pow2(prefix) == AddressCount
    ensures Pow2(32 - prefix) == 1 <==> prefix == 32
  {
    Pow2Add(32 - prefix, prefix);
    Pow2Of32();
    if prefix < 32 {
      Pow2AtLeastTwo(32 - prefix);
    }
  }

  lemma {:induction false} Pow2AtLeastTwo(k: nat)
    requires k >= 1
    ensures Pow2(k) >= 2
  {
    assert Pow2(k) == 2 * Pow2(k - 1);
  }

  lemma Pow2Of32()
    ensures Pow2(32) == AddressCount
  {
    Pow2Add(8, 8);
    Pow2Add(16, 16);
    assert Pow2(8) == 256 by {
      assert Pow2(1) == 2;
      assert Pow2(2) == 4;
      assert Pow2(3) == 8;
      assert Pow2(4) == 16;
      assert Pow2(5) == 32;
      assert Pow2(6) == 64;
      assert Pow2(7) == 128;
    }
  }

  /** `x` with its `k` lowest bits cleared. */
  function ClearLow(x: nat, k: nat): nat
  {
    if k == 0 then x else 2 * ClearLow(x / 2, k - 1)
  }

  lemma {:induction false} ClearLowBounds(x: nat, k: nat, j: nat)
    requires x < Pow2(j + k)
    ensures ClearLow(x, k) <= x < ClearLow(x, k) + Pow2(k)
    ensures ClearLow(x, k) + Pow2(k) <= Pow2(j + k)
    decreases k
  {
    if k > 0 {
      assert Pow2(j + k) == 2 * Pow2(j + (k - 1));
      ClearLowBounds(x / 2, k - 1, j);
    }
  }

  lemma {:induction false} ClearLowOffset(x: nat, k: nat, n: nat)
    requires n < Pow2(k)
    ensures ClearLow(ClearLow(x, k) + n, k) == ClearLow(x, k)
    decreases k
  {
    if k > 0 {
      var c := ClearLow(x / 2, k - 1);
      assert (2 * c + n) / 2 == c + n / 2;
      ClearLowOffset(x / 2, k - 1, n / 2);
    }
  }

  /** The network address: `ip` with its host bits cleared (`ip & mask`). */
  function NetworkBase(ip: Addr, prefix: PrefixLen): (base: Addr)
    ensures base <= ip < base + Size(prefix)
    ensures base + Size(prefix) <= AddressCount
  {
    Pow2Of32();
    assert 32 - prefix + prefix == 32;
    ClearLowBounds(ip, 32 - prefix, prefix);
    ClearLow(ip, 32 - prefix)
  }

  /** `Ipv4Network::nth(n)`: the address `n` past the network address, if inside the network. */
  function Nth(ip: Addr, prefix: PrefixLen, n: nat): (r: Option<Addr>)
    ensures r.Some? <==> n < Size(prefix)
    ensures r.Some? ==> r.value == NetworkBase(ip, prefix) + n
    ensures r.Some? ==> NetworkBase(r.value, prefix) == NetworkBase(ip, prefix)
  {
    var base := NetworkBase(ip, prefix);
    if n < Size(prefix) then
      ClearLowOffset(ip, 32 - prefix, n);
      Some(base + n)
    else None
  }

  /** The first service address of `src/pki.rs`: `nth(1)` of an IPv4 network, loopback otherwise. */
  function FirstServiceAddr(net: IpNetwork): Option<Addr>
  {
    match net
    case V4(ip, prefix) => Nth(ip, prefix, 1)
    case V6(_, _) => Some(Localhost)
  }

  /**
   * An IPv4 network has a first service address unless it is a single
   * address (/32), and then it is the one after the network address; any
   * other network falls back to loopback.
   */
  lemma FirstServiceAddrMeaning(net: IpNetwork)
    ensures net.V4? ==> (FirstServiceAddr(net).Some? <==> net.prefix < 32)
    ensures net.V4? && FirstServiceAddr(net).Some? ==>
      FirstServiceAddr(net).value == NetworkBase(net.ip, net.prefix) + 1
    ensures net.V6? ==> FirstServiceAddr(net) == Some(Localhost)
  {
  }

  /** The four octets, most significant first (`Ipv4Addr::octets`). */
  function Octets(a: Addr): (o: seq<nat>)
    ensures |o| == 4 && forall i :: 0 <= i < 4 ==> o[i] < 256
    ensures a == FromOctets(o[0], o[1], o[2], o[3])
  {
    var b := a / 256;
    var c := b / 256;
    ByteSplit(a);
    ByteSplit(b);
    ByteSplit(c);
    [c / 256, c % 256, b % 256, a % 256]
  }

  /** The low byte of `x` and the rest. */
  lemma ByteSplit(x: nat)
    ensures x == (x / 256) * 256 + x % 256 && x % 256 < 256
  {
  }

  function FromOctets(o0: nat, o1: nat, o2: nat, o3: nat): nat
  {
    o0 * 0x100_0000 + o1 * 0x1_0000 + o2 * 256 + o3
  }

  /** `Ipv4Addr`'s `Display`: the octets in decimal, separated by dots. */
  function Render(a: Addr): (s: string)
    ensures ',' !in s
  {
    var o := Octets(a);
    var parts := [Decimal(o[0]), Decimal(o[1]), Decimal(o[2]), Decimal(o[3])];
    DottedHasNoComma(parts);
    JoinWith(parts, '.')
  }

  lemma {:induction false} DottedHasNoComma(parts: seq<string>)
    requires forall i :: 0 <= i < |parts| ==> AllDigits(parts[i])
    ensures ',' !in JoinWith(parts, '.')
    decreases |parts|
  {
    if |parts| > 1 {
      DottedHasNoComma(parts[1..]);
      assert ',' !in parts[0];
    } else if |parts| == 1 {
      assert ',' !in parts[0];
    }
  }

  predicate IsOctetText(s: string)
  {
    |s| >= 1 && AllDigits(s) && DecimalValue(s) < 256
  }

  /** Reads dotted-decimal text back into an address. */
  function Parse(s: string): (r: Option<Addr>)
  {
    var parts := Split(s, '.');
    if |parts| == 4 && IsOctetText(parts[0]) && IsOctetText(parts[1])
       && IsOctetText(parts[2]) && IsOctetText(parts[3])
    then
      Some(FromOctets(DecimalValue(parts[0]), DecimalValue(parts[1]),
                      DecimalValue(parts[2]), DecimalValue(parts[3])))
    else None
  }

  lemma OctetText(o: nat)
    requires o < 256
    ensures IsOctetText(Decimal(o)) && DecimalValue(Decimal(o)) == o && '.' !in Decimal(o)
  {
    DecimalRoundTrip(o);
    assert !IsDigit('.');
  }

  /** The rendering is unambiguous: parsing it gives the address back. */
  lemma ParseRender(a: Addr)
    ensures Parse(Render(a)) == Some(a)
  {
    var o := Octets(a);
    var parts := [Decimal(o[0]), Decimal(o[1]), Decimal(o[2]), Decimal(o[3])];
    OctetText(o[0]);
    OctetText(o[1]);
    OctetText(o[2]);
    OctetText(o[3]);
    SplitJoin(parts, '.');
    assert Split(Render(a), '.') == parts;
  }

  lemma RenderInjective(a: Addr, b: Addr)
    requires Render(a) == Render(b)
    ensures a == b
  {
    ParseRender(a);
    ParseRender(b);
  }
}
