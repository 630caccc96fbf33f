/** IPv4 prefixes: dotted-decimal parsing, the server's prefix test and the wizard's bit-mask test,
    both related to plain inclusion of address sets. */
module IPv4 {
  import opened Wrappers
  import opened Text

  const ADDRESS_SPACE: nat := 0x1_0000_0000

  // x << k and x >> k on unbounded unsigned integers.
  function Shl(x: nat, k: nat): (r: nat)
    ensures x >= 1 ==> r >= 1
  {
    if k == 0 then x else 2 * Shl(x, k - 1)
  }

  function Shr(x: nat, k: nat): nat {
    if k == 0 then x else Shr(x / 2, k - 1)
  }

  function Pow2(n: nat): nat {
    Shl(1, n)
  }

  lemma Pow2At32()
    ensures Pow2(32) == ADDRESS_SPACE
  {
    assert Pow2(8) == 0x100;
    assert Pow2(16) == 0x1_0000 by { assert Pow2(12) == 16 * Pow2(8); }
    assert Pow2(24) == 0x100_0000 by { assert Pow2(20) == 16 * Pow2(16); }
    assert Pow2(28) == 16 * Pow2(24);
  }

  type Address = a: nat | a < ADDRESS_SPACE
  datatype Prefix = Prefix(addr: Address, bits: nat)

  predicate ValidPrefix(p: Prefix) {
    p.bits <= 32
  }

  // ---------- What a prefix means ----------

  // The number of low bits a prefix leaves open.
  function HostBits(p: Prefix): nat
    requires ValidPrefix(p)
  {
    32 - p.bits
  }

  // The address of a prefix with its host bits cleared.
  function First(p: Prefix): nat
    requires ValidPrefix(p)
  {
    Shl(Shr(p.addr, HostBits(p)), HostBits(p))
  }

  /** The set of addresses a prefix denotes: 2^(32-bits) consecutive ones from its first address. */
  ghost predicate Denotes(p: Prefix, a: Address)
    requires ValidPrefix(p)
  {
    First(p) <= a < First(p) + Pow2(HostBits(p))
  }

  ghost predicate Within(child: Prefix, parent: Prefix)
    requires ValidPrefix(child) && ValidPrefix(parent)
  {
    forall a: Address :: Denotes(child, a) ==> Denotes(parent, a)
  }

  // ---------- Dotted-decimal notation ----------

  function ParseOctet(s: string): Option<nat> {
    if |s| <= 3 && Canonical(s) && Value(s) <= 255 then Some(Value(s)) else None
  }

  function Assemble(a: nat, b: nat, c: nat, d: nat): (r: Address)
    requires a <= 255 && b <= 255 && c <= 255 && d <= 255
  {
    a * 0x100_0000 + b * 0x1_0000 + c * 0x100 + d
  }

  // netip.ParseAddr restricted to results that are IPv4 addresses.
  function ParseAddr(s: string): Option<Address> {
    var fields := Split(s, '.');
    if |fields| != 4 then None
    else match (ParseOctet(fields[0]), ParseOctet(fields[1]), ParseOctet(fields[2]), ParseOctet(fields[3]))
      case (Some(a), Some(b), Some(c), Some(d)) => Some(Assemble(a, b, c, d))
      case _ => None
  }

  // netip.ParsePrefix restricted to IPv4. It cuts at the last slash; an address part holding another
  // slash is not an address, so cutting the string into exactly two pieces accepts the same strings.
  function ParsePrefix(s: string): (r: Option<Prefix>)
    ensures r.Some? ==> ValidPrefix(r.value)
  {
    var pieces := Split(s, '/');
    if |pieces| != 2 || !Canonical(pieces[1]) || Value(pieces[1]) > 32 then None
    else match ParseAddr(pieces[0])
      case None => None
      case Some(a) => Some(Prefix(a, Value(pieces[1])))
  }

  function Masked(p: Prefix): (r: Prefix)
    requires ValidPrefix(p)
    ensures ValidPrefix(r)
  {
    BlockFits(p);
    Prefix(First(p), p.bits)
  }

  // ---------- The server's tests (netip.Prefix.Contains) ----------

  // Contains compares the leading bits: both addresses shifted right by 32-bits are equal.
  predicate Contains(p: Prefix, a: Address)
    requires ValidPrefix(p)
  {
    Shr(p.addr, HostBits(p)) == Shr(a, HostBits(p))
  }

  predicate ServerSubnetTest(network: Prefix, subnet: Prefix)
    requires ValidPrefix(network) && ValidPrefix(subnet)
  {
    !(!Contains(network, subnet.addr) || subnet.bits < network.bits)
  }

  // ---------- The wizard's tests ----------

  // Bitwise conjunction of two unsigned integers.
  function BitAnd(a: nat, b: nat): nat {
    if a == 0 || b == 0 then 0
    else 2 * BitAnd(a / 2, b / 2) + (if a % 2 == 1 && b % 2 == 1 then 1 else 0)
  }

  // (0xffffffff << (32 - bits)) >>> 0, with the shift by 32 special-cased as in the source.
  function WizardMask(bits: nat): nat
    requires bits <= 32
  {
    if bits == 0 then 0 else Shl(0xffff_ffff, 32 - bits) % ADDRESS_SPACE
  }

  predicate CidrContains(parent: Prefix, child: Prefix)
    requires ValidPrefix(parent)
  {
    if child.bits < parent.bits then false
    else
      var mask := WizardMask(parent.bits);
      BitAnd(parent.addr, mask) == BitAnd(child.addr, mask)
  }

  predicate CidrContainsAddress(p: Prefix, a: Address)
    requires ValidPrefix(p)
  {
    var mask := WizardMask(p.bits);
    BitAnd(p.addr, mask) == BitAnd(a, mask)
  }

  // ---------- Arithmetic of blocks ----------

  // The addresses with the same leading bits q are the 2^k ones from q << k on.
  lemma {:induction false} ShrRange(x: nat, q: nat, k: nat)
    ensures Shr(x, k) == q <==> Shl(q, k) <= x < Shl(q, k) + Pow2(k)
  {
    if k > 0 {
      ShrRange(x / 2, q, k - 1);
    }
  }

  lemma {:induction false} ShrTwice(x: nat, m: nat, n: nat)
    ensures Shr(x, m + n) == Shr(Shr(x, m), n)
  {
    if m > 0 {
      ShrTwice(x / 2, m - 1, n);
    }
  }

  lemma {:induction false} RoundedDownFits(x: nat, k: nat, width: nat)
    requires k <= width && x < Pow2(width)
    ensures Shl(Shr(x, k), k) + Pow2(k) <= Pow2(width)
  {
    if k == 0 {
    } else {
      RoundedDownFits(x / 2, k - 1, width - 1);
    }
  }

  lemma {:induction false} Pow2Monotone(m: nat, n: nat)
    requires m <= n
    ensures Pow2(m) <= Pow2(n)
  {
    if m < n {
      Pow2Monotone(m, n - 1);
    }
  }

  lemma BlockFits(p: Prefix)
    requires ValidPrefix(p)
    ensures First(p) + Pow2(HostBits(p)) <= ADDRESS_SPACE
    ensures First(p) < ADDRESS_SPACE
  {
    Pow2At32();
    RoundedDownFits(p.addr, HostBits(p), 32);
  }

  /** Contains is membership in the denoted block. */
  lemma ContainsMeansDenotes(p: Prefix, a: Address)
    requires ValidPrefix(p)
    ensures Contains(p, a) <==> Denotes(p, a)
  {
    ShrRange(a, Shr(p.addr, HostBits(p)), HostBits(p));
  }

  /** Masking a prefix keeps the addresses it denotes. */
  lemma MaskedSameBlock(p: Prefix, a: Address)
    requires ValidPrefix(p)
    ensures Denotes(Masked(p), a) <==> Denotes(p, a)
    ensures Contains(Masked(p), a) <==> Contains(p, a)
  {
    ShrRange(First(p), Shr(p.addr, HostBits(p)), HostBits(p));
    ContainsMeansDenotes(p, a);
    ContainsMeansDenotes(Masked(p), a);
  }

  /** The server's subnet test holds exactly when every address of the subnet is an address of the network. */
  lemma ServerSubnetTestMeansWithin(network: Prefix, subnet: Prefix)
    requires ValidPrefix(network) && ValidPrefix(subnet)
    ensures ServerSubnetTest(network, subnet) <==> Within(subnet, network)
  {
    ContainsMeansDenotes(subnet, subnet.addr);
    ContainsMeansDenotes(network, subnet.addr);
    if ServerSubnetTest(network, subnet) {
      forall a: Address | Denotes(subnet, a) ensures Denotes(network, a) {
        ContainsMeansDenotes(subnet, a);
        ContainsMeansDenotes(network, a);
        ShrTwice(a, HostBits(subnet), subnet.bits - network.bits);
        ShrTwice(subnet.addr, HostBits(subnet), subnet.bits - network.bits);
      }
    } else if subnet.bits < network.bits && Within(subnet, network) {
      WiderIsNotWithin(network, subnet);
    }
  }

  // The first and last address of a wider block cannot both lie in a narrower one.
  lemma WiderIsNotWithin(network: Prefix, subnet: Prefix)
    requires ValidPrefix(network) && ValidPrefix(subnet) && subnet.bits < network.bits
    ensures !Within(subnet, network)
  {
    BlockFits(subnet);
    Pow2Monotone(HostBits(network), HostBits(subnet) - 1);
    assert Pow2(HostBits(subnet)) == 2 * Pow2(HostBits(subnet) - 1);
    var last := First(subnet) + Pow2(HostBits(subnet)) - 1;
    assert Denotes(subnet, First(subnet)) && Denotes(subnet, last);
  }

  lemma BitAndZero(a: nat)
    ensures BitAnd(a, 0) == 0
  {
  }

  // Conjunction with a mask of ones above k zeros clears the k low bits.
  lemma {:induction false} BitAndHighMask(a: nat, width: nat, k: nat)
    requires k <= width && a < Pow2(width)
    ensures Pow2(k) <= Pow2(width)
    ensures BitAnd(a, Pow2(width) - Pow2(k)) == Shl(Shr(a, k), k)
  {
    Pow2Monotone(k, width);
    var mask := Pow2(width) - Pow2(k);
    if k == width {
      BitAndZero(a);
      ShrRange(a, 0, k);
      ShiftedZero(k);
    } else if k == 0 {
      BitAndHighMask(a / 2, width - 1, 0);
      assert mask / 2 == Pow2(width - 1) - Pow2(0) && mask % 2 == 1;
    } else {
      BitAndHighMask(a / 2, width - 1, k - 1);
      assert mask / 2 == Pow2(width - 1) - Pow2(k - 1) && mask % 2 == 0;
    }
  }

  lemma {:induction false} ShiftedZero(k: nat)
    ensures Shl(0, k) == 0
  {
    if k > 0 {
      ShiftedZero(k - 1);
    }
  }

  lemma {:induction false} ShiftedOnes(k: nat)
    ensures Shl(0xffff_ffff, k) == ADDRESS_SPACE * Pow2(k) - Pow2(k)
  {
    if k > 0 {
      ShiftedOnes(k - 1);
    }
  }

  lemma WizardMaskValue(bits: nat)
    requires bits <= 32
    ensures Pow2(32 - bits) <= ADDRESS_SPACE
    ensures WizardMask(bits) == ADDRESS_SPACE - Pow2(32 - bits)
  {
    Pow2At32();
    Pow2Monotone(32 - bits, 32);
    ShiftedOnes(32 - bits);
    var p := Pow2(32 - bits);
    assert Shl(0xffff_ffff, 32 - bits) == ADDRESS_SPACE * (p - 1) + (ADDRESS_SPACE - p);
  }

  /** The wizard's gateway test, on an unmasked prefix, is membership in the denoted block. */
  lemma WizardAddressTestMeansDenotes(p: Prefix, a: Address)
    requires ValidPrefix(p)
    ensures CidrContainsAddress(p, a) <==> Denotes(p, a)
  {
    Pow2At32();
    WizardMaskValue(p.bits);
    var k := HostBits(p);
    BitAndHighMask(p.addr, 32, k);
    BitAndHighMask(a, 32, k);
    ShrRange(First(p), Shr(p.addr, k), k);
    ShrRange(Shl(Shr(a, k), k), Shr(a, k), k);
    ContainsMeansDenotes(p, a);
  }

  /** The wizard's subnet test, on unmasked prefixes, is inclusion of the address sets too. */
  lemma WizardSubnetTestMeansWithin(parent: Prefix, child: Prefix)
    requires ValidPrefix(parent) && ValidPrefix(child)
    ensures CidrContains(parent, child) <==> Within(child, parent)
  {
    WizardAddressTestMeansDenotes(parent, child.addr);
    ContainsMeansDenotes(parent, child.addr);
    ServerSubnetTestMeansWithin(parent, child);
  }
}
