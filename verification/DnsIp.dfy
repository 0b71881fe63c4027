/**
 The cluster DNS IP (`DNSIP`): the last octet of the service range becomes 10. Ranges are in CIDR
 notation (RFC 4632, section 3.1), already parsed into four octets and a prefix length.
 */
module DnsIp {
  import opened Wrappers

  const DEFAULT_DNS_LAST_OCTET: Octet := 10

  type Octet = x: int | 0 <= x < 256

  datatype Address = Address(a: Octet, b: Octet, c: Octet, d: Octet)

  /** What `net.ParseCIDR` makes of the text; the address is kept with its host bits. */
  datatype Parsed = Malformed | V6 | V4(address: Address, prefix: Prefix)

  type Prefix = p: int | 0 <= p <= 32

  datatype InvalidConfig = InvalidConfig

  method DnsIp(range: Parsed) returns (r: Result<Address, InvalidConfig>)
    ensures r.Ok? <==> Accepted(range)
    ensures r.Ok? <==> range.V4? && range.address.d == 0
    ensures r.Ok? ==> r.value == DnsAddress(range.address) == range.address.(d := 10)
  {
    if range.Malformed? {
      return Err(InvalidConfig);
    }
    // Only IPv4 ranges are supported.
    if range.V6? {
      return Err(InvalidConfig);
    }
    var ip := new Octet[4];
    ip[0], ip[1], ip[2], ip[3] := range.address.a, range.address.b, range.address.c, range.address.d;
    if ip[3] != 0 {
      return Err(InvalidConfig);
    }
    ip[3] := DEFAULT_DNS_LAST_OCTET;
    return Ok(Address(ip[0], ip[1], ip[2], ip[3]));
  }

  predicate Accepted(range: Parsed) {
    range.V4? && range.address.d == 0
  }

  function DnsAddress(ip: Address): Address {
    ip.(d := DEFAULT_DNS_LAST_OCTET)
  }

  /** An address as a number. */
  function Value(ip: Address): nat {
    ((ip.a * 256 + ip.b) * 256 + ip.c) * 256 + ip.d
  }

  function Pow2(n: nat): (r: nat)
    ensures r > 0
  {
    if n == 0 then 1 else 2 * Pow2(n - 1)
  }

  /** How many addresses a range with this prefix has. */
  function Size(p: Prefix): (r: nat)
    ensures r > 0
  {
    Pow2(32 - p)
  }

  predicate InRange(x: Address, ip: Address, p: Prefix) {
    Value(x) / Size(p) == Value(ip) / Size(p)
  }

  function NetworkBase(ip: Address, p: Prefix): int {
    Value(ip) / Size(p) * Size(p)
  }

  lemma DivUnique(y: nat, b: nat, q: nat)
    requires b > 0 && q * b <= y < q * b + b
    ensures y / b == q
  {
    var d := y / b;
    assert d * b <= y < d * b + b;
    if d < q {
      MulMonotone(d + 1, q, b);
    } else if q < d {
      MulMonotone(q + 1, d, b);
    }
  }

  lemma MulMonotone(x: nat, y: nat, b: nat)
    requires x <= y
    ensures x * b <= y * b
  {
  }

  lemma {:induction false} Pow2Bounds(h: nat)
    ensures h >= 8 ==> Pow2(h) == 256 * Pow2(h - 8)
  {
    if h == 8 {
      Pow2Values();
    } else if h > 8 {
      Pow2Bounds(h - 1);
    }
  }

  lemma Pow2Values()
    ensures Pow2(0) == 1 && Pow2(1) == 2 && Pow2(2) == 4 && Pow2(3) == 8
    ensures Pow2(4) == 16 && Pow2(5) == 32 && Pow2(6) == 64 && Pow2(7) == 128 && Pow2(8) == 256
  {
  }

  /** In a block of at least 256 addresses, x.x.x.10 is in the block of x.x.x.0. */
  lemma LargeBlock(m: nat, c: nat)
    requires c > 0
    ensures (256 * m + 10) / (256 * c) == (256 * m) / (256 * c) == m / c
  {
    var q, r := m / c, m % c;
    assert m == q * c + r;
    assert 256 * m == q * (256 * c) + 256 * r;
    DivUnique(256 * m, 256 * c, q);
    DivUnique(256 * m + 10, 256 * c, q);
  }

  lemma SmallBlock(m: nat, h: nat)
    requires h <= 8
    ensures (256 * m + 10) / Pow2(h) == (256 * m) / Pow2(h) <==> h >= 4
  {
    Pow2Values();
    if h < 4 {
      TinyBlock(m, m, h);
    } else {
      var c, b := if h == 8 then 1 else if h == 7 then 2 else if h == 6 then 4 else if h == 5 then 8 else 16, Pow2(h);
      assert 256 * m == m * c * b;
      DivUnique(256 * m, b, m * c);
      DivUnique(256 * m + 10, b, m * c);
    }
  }

  lemma TinyBlock(m: nat, k: nat, h: nat)
    requires h < 4
    ensures (256 * m + 10) / Pow2(h) != (256 * k) / Pow2(h)
  {
    Pow2Values();
  }

  /** The DNS IP belongs to the range it was computed from exactly when the prefix is at most 28. */
  lemma DnsInRangeIff(range: Parsed)
    requires Accepted(range)
    ensures InRange(DnsAddress(range.address), range.address, range.prefix) <==> range.prefix <= 28
  {
    var ip, h := range.address, 32 - range.prefix;
    var m := (ip.a * 256 + ip.b) * 256 + ip.c;
    assert Value(ip) == 256 * m && Value(DnsAddress(ip)) == 256 * m + 10;
    if h <= 8 {
      SmallBlock(m, h);
    } else {
      Pow2Bounds(h);
      LargeBlock(m, Pow2(h - 8));
    }
  }

  /** It is the tenth address after the start of the network exactly when the given address is that
      start. */
  lemma DnsIsTenthIff(range: Parsed)
    requires Accepted(range)
    ensures Value(DnsAddress(range.address)) == NetworkBase(range.address, range.prefix) + 10
       <==> Value(range.address) == NetworkBase(range.address, range.prefix)
  {
  }

  /** Being accepted makes an address the start of its network, and the DNS IP the tenth address after that
      start, exactly for prefixes from 24 on; for shorter ones 0.0.1.0 is accepted and is not. */
  lemma AcceptedIsNetworkIff(p: Prefix)
    ensures (forall ip: Address :: Accepted(V4(ip, p)) ==> Value(ip) == NetworkBase(ip, p)) <==> p >= 24
    ensures (forall ip: Address :: Accepted(V4(ip, p)) ==> Value(DnsAddress(ip)) == NetworkBase(ip, p) + 10)
       <==> p >= 24
  {
    var h := 32 - p;
    if p >= 24 {
      forall ip: Address | Accepted(V4(ip, p))
        ensures Value(ip) == NetworkBase(ip, p) && Value(DnsAddress(ip)) == NetworkBase(ip, p) + 10
      {
        MultipleOf256(ip, p);
        DnsIsTenthIff(V4(ip, p));
      }
    } else {
      var ip := Address(0, 0, 1, 0);
      assert Accepted(V4(ip, p));
      Pow2Bounds(h);
      assert Pow2(h - 8) == 2 * Pow2(h - 9);
      DivUnique(256, Size(p), 0);
      DnsIsTenthIff(V4(ip, p));
    }
  }

  lemma MultipleOf256(ip: Address, p: Prefix)
    requires ip.d == 0 && p >= 24
    ensures Value(ip) == NetworkBase(ip, p)
  {
    var m := (ip.a * 256 + ip.b) * 256 + ip.c;
    assert Value(ip) == 256 * m;
    Aligned(m, 32 - p);
  }

  lemma Aligned(m: nat, h: nat)
    requires h <= 8
    ensures 256 * m / Pow2(h) * Pow2(h) == 256 * m
  {
    var c := if h == 8 then 1 else if h == 7 then 2 else if h == 6 then 4 else if h == 5 then 8
             else if h == 4 then 16 else if h == 3 then 32 else if h == 2 then 64 else if h == 1 then 128 else 256;
    Pow2Values();
    assert 256 == c * Pow2(h);
    var q, b := m * c, Pow2(h);
    assert 256 * m == q * b;
    DivUnique(256 * m, b, q);
  }

  ghost predicate Disjoint(r: Parsed, s: Parsed)
    requires r.V4? && s.V4?
  {
    forall x: Address :: !(InRange(x, r.address, r.prefix) && InRange(x, s.address, s.prefix))
  }

  /** Clusters with disjoint service ranges get different DNS IPs, even where the IP is not in the range:
      equal DNS IPs come from equal addresses, which lie in both ranges. */
  lemma DisjointRangesDiffer(r: Parsed, s: Parsed)
    requires Accepted(r) && Accepted(s) && Disjoint(r, s)
    ensures DnsAddress(r.address) != DnsAddress(s.address)
  {
    assert InRange(r.address, r.address, r.prefix);
    assert InRange(s.address, s.address, s.prefix);
  }

  /** The DNS IP computed from one range lies in a second one exactly when the address of the first does
      and the second has a prefix of at most 28. */
  lemma DnsInOtherRangeIff(own: Parsed, other: Parsed)
    requires Accepted(own) && Accepted(other)
    ensures InRange(DnsAddress(own.address), other.address, other.prefix)
       <==> other.prefix <= 28 && InRange(own.address, other.address, other.prefix)
  {
    if other.prefix <= 28 {
      DnsInRangeIff(V4(own.address, other.prefix));
    } else {
      var x, y := own.address, other.address;
      TinyBlock((x.a * 256 + x.b) * 256 + x.c, (y.a * 256 + y.b) * 256 + y.c, 32 - other.prefix);
    }
  }
}
