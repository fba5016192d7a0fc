/** IP addresses, networks and the fixed subnets of vula/constants.py. */
module Addresses {

  newtype byte = x: int | 0 <= x < 256

  type Bytes = seq<byte>

  datatype Option<+T> = None | Some(value: T)

  /** An address is its packed form; the version is the constructor. */
  datatype RawIP = V4(octets: Bytes) | V6(octets: Bytes) {
    predicate Valid() {
      |octets| == if V4? then 4 else 16
    }
  }

  const ZERO16: Bytes := [0, 0, 0, 0, 0, 0, 0, 0, 0, 0, 0, 0, 0, 0, 0, 0]

  type IP = ip: RawIP | ip.Valid() witness V4([0, 0, 0, 0])
  type IPv4 = ip: RawIP | ip.Valid() && ip.V4? witness V4([0, 0, 0, 0])
  type IPv6 = ip: RawIP | ip.Valid() && ip.V6? witness V6(ZERO16)

  /** A network: its address and the number of leading bits that count. */
  datatype Net = Net(address: IP, prefix: nat)

  function Pow2(n: nat): nat {
    if n == 0 then 1 else 2 * Pow2(n - 1)
  }

  lemma Pow2Positive(n: nat)
    ensures Pow2(n) > 0
  {
  }

  /** Bit i of a packed address, most significant bit first. */
  function Bit(o: Bytes, i: nat): bool
    requires i < 8 * |o|
  {
    Pow2Positive(7 - i % 8);
    (o[i / 8] as int / Pow2(7 - i % 8)) % 2 == 1
  }

  /** Python's "address in network": same version, same leading bits. */
  predicate Contains(net: Net, ip: IP) {
    && net.address.V4? == ip.V4?
    && forall i | 0 <= i < net.prefix && i < 8 * |ip.octets| :: Bit(ip.octets, i) == Bit(net.address.octets, i)
  }

  predicate InAny(ip: IP, nets: seq<Net>) {
    exists n | n in nets :: Contains(n, ip)
  }

  /** fdff:ffff:ffdf::/48 */
  const VULA_ULA_SUBNET: Net :=
    Net(V6([0xfd, 0xff, 0xff, 0xff, 0xff, 0xdf, 0, 0, 0, 0, 0, 0, 0, 0, 0, 0]), 48)

  /** fc00::/7 */
  const IPV6_ULA: Net := Net(V6([0xfc, 0, 0, 0, 0, 0, 0, 0, 0, 0, 0, 0, 0, 0, 0, 0]), 7)

  /** fe80::/10 */
  const IPV6_LL: Net := Net(V6([0xfe, 0x80, 0, 0, 0, 0, 0, 0, 0, 0, 0, 0, 0, 0, 0, 0]), 10)

  /** 169.254.0.0/16 */
  const IPV4_LL: Net := Net(V4([169, 254, 0, 0]), 16)

  // ----- networks as octets -----

  /** The number the first r bits of an octet make. */
  function Top(x: byte, r: nat): nat
    requires r <= 8
  {
    Pow2Positive(8 - r);
    x as int / Pow2(8 - r)
  }

  predicate BitOf(x: byte, j: nat)
    requires j < 8
  {
    Pow2Positive(7 - j);
    (x as int / Pow2(7 - j)) % 2 == 1
  }

  lemma Halves(x: nat, p: nat)
    requires p in [1, 2, 4, 8, 16, 32, 64, 128]
    ensures x / p == 2 * (x / (2 * p)) + (x / p) % 2
  {
  }

  lemma SmallPowers(r: nat)
    requires r < 8
    ensures Pow2(7 - r) in [1, 2, 4, 8, 16, 32, 64, 128] && Pow2(8 - r) == 2 * Pow2(7 - r)
  {
    assert Pow2(2) == 4 && Pow2(3) == 8 && Pow2(4) == 16 && Pow2(5) == 32 && Pow2(6) == 64 && Pow2(7) == 128;
  }

  lemma TopStep(x: byte, r: nat)
    requires r < 8
    ensures Top(x, r + 1) == 2 * Top(x, r) + if BitOf(x, r) then 1 else 0
  {
    SmallPowers(r);
    Halves(x as int, Pow2(7 - r));
  }

  lemma TopEnds(x: byte)
    ensures Top(x, 0) == 0 && Top(x, 8) == x as int
  {
    SmallPowers(0);
    assert Pow2(8) == 256;
  }

  lemma {:induction false} TopsAgree(a: byte, b: byte, r: nat)
    requires r <= 8
    ensures Top(a, r) == Top(b, r) <==> forall j | 0 <= j < r :: BitOf(a, j) == BitOf(b, j)
  {
    if r == 0 {
      TopEnds(a);
      TopEnds(b);
    } else {
      TopsAgree(a, b, r - 1);
      TopStep(a, r - 1);
      TopStep(b, r - 1);
    }
  }

  /** The first m bits of octet k agree, if there are as many. */
  predicate AgreeAt(o: Bytes, q: Bytes, k: nat, m: nat)
    requires k < |o| == |q| && m <= 8
  {
    forall j | 0 <= j < m :: BitOf(o[k], j) == BitOf(q[k], j)
  }

  lemma OctetsOfBits(o: Bytes, q: Bytes, n: nat)
    requires |o| == |q| && n <= 8 * |o| && forall i | 0 <= i < n :: Bit(o, i) == Bit(q, i)
    ensures forall k | 0 <= k < n / 8 :: AgreeAt(o, q, k, 8)
    ensures n % 8 > 0 ==> AgreeAt(o, q, n / 8, n % 8)
  {
    forall k, j | 0 <= k < |o| && 0 <= j < 8 && 8 * k + j < n ensures BitOf(o[k], j) == BitOf(q[k], j) {
      assert Bit(o, 8 * k + j) == Bit(q, 8 * k + j);
    }
  }

  lemma BitOfOctets(o: Bytes, q: Bytes, n: nat, i: nat)
    requires |o| == |q| && i < n <= 8 * |o|
    requires forall k | 0 <= k < n / 8 :: AgreeAt(o, q, k, 8)
    requires n % 8 > 0 ==> AgreeAt(o, q, n / 8, n % 8)
    ensures Bit(o, i) == Bit(q, i)
  {
    assert AgreeAt(o, q, i / 8, if i / 8 < n / 8 then 8 else n % 8);
    assert BitOf(o[i / 8], i % 8) == BitOf(q[i / 8], i % 8);
  }

  lemma AgreesByOctets(o: Bytes, q: Bytes, n: nat)
    requires |o| == |q| && n <= 8 * |o|
    ensures (forall i | 0 <= i < n :: Bit(o, i) == Bit(q, i)) <==>
              && (forall k | 0 <= k < n / 8 :: AgreeAt(o, q, k, 8))
              && (n % 8 > 0 ==> AgreeAt(o, q, n / 8, n % 8))
  {
    if forall i | 0 <= i < n :: Bit(o, i) == Bit(q, i) {
      OctetsOfBits(o, q, n);
    } else if (forall k | 0 <= k < n / 8 :: AgreeAt(o, q, k, 8)) && (n % 8 > 0 ==> AgreeAt(o, q, n / 8, n % 8)) {
      forall i | 0 <= i < n ensures Bit(o, i) == Bit(q, i) {
        BitOfOctets(o, q, n, i);
      }
    }
  }

  lemma OctetAgrees(o: Bytes, q: Bytes, k: nat)
    requires k < |o| == |q|
    ensures AgreeAt(o, q, k, 8) <==> o[k] == q[k]
  {
    TopsAgree(o[k], q[k], 8);
    TopEnds(o[k]);
    TopEnds(q[k]);
  }

  /** An address is in a network of its own version if the whole octets of the prefix and the bits behind them agree. */
  lemma ContainsExactly(net: Net, ip: IP)
    requires net.address.Valid() && net.prefix <= 8 * |net.address.octets|
    ensures Contains(net, ip) <==>
              && net.address.V4? == ip.V4?
              && var k, r := net.prefix / 8, net.prefix % 8;
              && ip.octets[..k] == net.address.octets[..k]
              && (r > 0 ==> Top(ip.octets[k], r) == Top(net.address.octets[k], r))
  {
    if net.address.V4? == ip.V4? {
      var o, q, k, r := ip.octets, net.address.octets, net.prefix / 8, net.prefix % 8;
      AgreesByOctets(o, q, net.prefix);
      forall i | 0 <= i < |o| ensures AgreeAt(o, q, i, 8) <==> o[i] == q[i] {
        OctetAgrees(o, q, i);
      }
      if r > 0 {
        TopsAgree(o[k], q[k], r);
      }
      assert o[..k] == q[..k] <==> forall i | 0 <= i < k :: o[i] == q[i] by {
        assert forall i | 0 <= i < k :: o[..k][i] == o[i] && q[..k][i] == q[i];
      }
    }
  }
}
