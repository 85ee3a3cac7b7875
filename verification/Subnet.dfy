/** The subnet arithmetic of unix_ip_utils.cpp and the scan loop of discovery_client.cpp, on
    32-bit unsigned addresses with wrap-around. */
module Subnet {
  import opened Bytes

  type Address = uint32

  const LAST_ADDRESS: Address := 0xFFFF_FFFF

  // ---------- bits ----------

  function Pow2(w: nat): (p: nat)
    ensures p > 0
  {
    if w == 0 then 1 else 2 * Pow2(w - 1)
  }

  function And(a: nat, b: nat): nat {
    if a == 0 then 0 else 2 * And(a / 2, b / 2) + (a % 2) * (b % 2)
  }

  function Or(a: nat, b: nat): nat
    decreases a + b
  {
    if a == 0 then b
    else if b == 0 then a
    else 2 * Or(a / 2, b / 2) + (if a % 2 == 1 || b % 2 == 1 then 1 else 0)
  }

  function Not(a: Address): Address {
    LAST_ADDRESS - a
  }

  lemma PowersOf2()
    ensures Pow2(32) == TWO32
  {
    assert Pow2(8) == 0x100;
    assert Pow2(16) == 0x1_0000;
    assert Pow2(24) == 0x100_0000;
  }

  lemma {:induction false} AndAtMost(a: nat, b: nat)
    ensures And(a, b) <= a
  {
    if a > 0 {
      AndAtMost(a / 2, b / 2);
    }
  }

  /** mask and host together have each of the w bits once. */
  predicate Complement(w: nat, mask: nat, host: nat) {
    mask + host == Pow2(w) - 1
  }

  lemma HalfComplement(w: nat, mask: nat, host: nat)
    requires w > 0 && Complement(w, mask, host)
    ensures Complement(w - 1, mask / 2, host / 2)
    ensures mask % 2 + host % 2 == 1
  {
  }

  lemma NotComplement(mask: Address)
    ensures Complement(32, mask, Not(mask))
  {
    PowersOf2();
  }

  lemma AndHalves(a: nat, b: nat)
    ensures And(a, b) == 2 * And(a / 2, b / 2) + (a % 2) * (b % 2)
  {
  }

  /** A masked address has no host bits, so joining the host bits adds them. */
  lemma {:induction false} JoinHostBits(w: nat, a: nat, mask: nat, host: nat)
    requires Complement(w, mask, host) && a < Pow2(w)
    ensures Or(And(a, mask), host) == And(a, mask) + host
  {
    if w == 0 {
    } else {
      HalfComplement(w, mask, host);
      JoinHostBits(w - 1, a / 2, mask / 2, host / 2);
      var half := And(a / 2, mask / 2);
      var low := (a % 2) * (mask % 2);
      AndHalves(a, mask);
      assert And(a, mask) / 2 == half && And(a, mask) % 2 == low;
    }
  }

  // ---------- the range ----------

  datatype SubnetRange = SubnetRange(
    network: Address, broadcast: Address, firstHost: Address, lastHost: Address, hostCount: uint32)

  function Minus(a: int, b: int): uint32 {
    (a - b) % TWO32
  }

  function Plus(a: int, b: int): uint32 {
    (a + b) % TWO32
  }

  function GetSubnetRange(ip: Address, mask: Address): SubnetRange {
    AndAtMost(ip, mask);
    BroadcastFits(ip, mask);
    RangeBetween(And(ip, mask), Or(And(ip, mask), Not(mask)))
  }

  function RangeBetween(network: Address, broadcast: Address): SubnetRange {
    if Minus(broadcast, network) >= 2 then
      SubnetRange(network, broadcast, Plus(network, 1), Minus(broadcast, 1), Minus(Minus(broadcast, network), 1))
    else
      SubnetRange(network, broadcast, network, network, 0)
  }

  lemma {:induction false} AndBelowMask(a: nat, b: nat)
    ensures And(a, b) <= b
  {
    if a > 0 {
      AndBelowMask(a / 2, b / 2);
      AndHalves(a, b);
    }
  }

  lemma BroadcastFits(ip: Address, mask: Address)
    ensures Or(And(ip, mask), Not(mask)) == And(ip, mask) + Not(mask) <= LAST_ADDRESS
  {
    NotComplement(mask);
    PowersOf2();
    JoinHostBits(32, ip, mask, Not(mask));
    AndBelowMask(ip, mask);
  }

  lemma NoWrap(a: int, b: int)
    ensures 0 <= a - b < TWO32 ==> Minus(a, b) == a - b
    ensures 0 <= a + b < TWO32 ==> Plus(a, b) == a + b
  {
  }

  lemma RangeBetweenArithmetic(network: Address, broadcast: Address)
    requires network <= broadcast
    ensures var r := RangeBetween(network, broadcast);
            && r.network == network && r.broadcast == broadcast
            && (broadcast - network >= 2 ==>
                  && r.firstHost == network + 1 && r.lastHost == broadcast - 1
                  && r.hostCount == broadcast - network - 1)
            && (broadcast - network < 2 ==> r.firstHost == r.lastHost == network && r.hostCount == 0)
  {
    NoWrap(broadcast, network);
    if broadcast - network >= 2 {
      NoWrap(network, 1);
      NoWrap(broadcast, 1);
      NoWrap(broadcast - network, 1);
    }
  }

  /** No step wraps: the broadcast address is Not(mask) above the network, the count of usable hosts
      is that of the range, and it is zero exactly when the host part is below 2. */
  lemma RangeArithmetic(ip: Address, mask: Address)
    ensures var r := GetSubnetRange(ip, mask);
            && r.network == And(ip, mask) && r.broadcast == r.network + Not(mask)
            && (Not(mask) >= 2 ==>
                  && r.firstHost == r.network + 1 && r.lastHost == r.broadcast - 1
                  && r.hostCount == Not(mask) - 1 == r.lastHost - r.firstHost + 1)
            && (Not(mask) < 2 ==> r.firstHost == r.lastHost == r.network)
            && (r.hostCount == 0 <==> Not(mask) < 2)
  {
    BroadcastFits(ip, mask);
    AndAtMost(ip, mask);
    RangeBetweenArithmetic(And(ip, mask), And(ip, mask) + Not(mask));
  }

  // ---------- the subnet ----------

  predicate InSubnet(x: Address, ip: Address, mask: Address) {
    And(x, mask) == And(ip, mask)
  }

  /** Ones only, or none: the host part of a contiguous mask. */
  predicate LowOnes(host: nat) {
    host == 0 || (host % 2 == 1 && LowOnes(host / 2))
  }

  predicate Contiguous(mask: Address) {
    LowOnes(Not(mask))
  }

  lemma {:induction false} AllOnes(w: nat, a: nat, mask: nat)
    requires Complement(w, mask, 0) && a < Pow2(w)
    ensures And(a, mask) == a
  {
    if w > 0 {
      HalfComplement(w, mask, 0);
      AllOnes(w - 1, a / 2, mask / 2);
    }
  }

  /** With a contiguous mask, lying in the range is sharing the masked bits. */
  lemma {:induction false} RangeIsBlock(w: nat, a: nat, x: nat, mask: nat, host: nat)
    requires Complement(w, mask, host) && LowOnes(host) && a < Pow2(w) && x < Pow2(w)
    ensures And(a, mask) <= x <= And(a, mask) + host <==> And(x, mask) == And(a, mask)
  {
    if host == 0 {
      AllOnes(w, a, mask);
      AllOnes(w, x, mask);
    } else {
      assert w > 0;
      HalfComplement(w, mask, host);
      RangeIsBlock(w - 1, a / 2, x / 2, mask / 2, host / 2);
      AndHalves(a, mask);
      AndHalves(x, mask);
    }
  }

  /** With a hole in the mask, some address up to the host part has a masked bit. */
  lemma {:induction false} HoleFound(w: nat, mask: nat, host: nat) returns (x: nat)
    requires Complement(w, mask, host) && !LowOnes(host)
    ensures x <= host && And(x, mask) != 0
  {
    assert w > 0;
    HalfComplement(w, mask, host);
    if host % 2 == 0 {
      x := 1;
      AndHalves(1, mask);
    } else {
      var half := HoleFound(w - 1, mask / 2, host / 2);
      x := 2 * half;
      AndHalves(x, mask);
    }
  }

  /** Lying between network and broadcast is the same as being in the subnet, for every address,
      exactly when the mask is contiguous. */
  lemma RangeIsSubnetIffContiguous(mask: Address)
    ensures Contiguous(mask) <==>
            forall ip: Address, x: Address ::
              (GetSubnetRange(ip, mask).network <= x <= GetSubnetRange(ip, mask).broadcast <==> InSubnet(x, ip, mask))
  {
    NotComplement(mask);
    PowersOf2();
    if Contiguous(mask) {
      forall ip: Address, x: Address
        ensures GetSubnetRange(ip, mask).network <= x <= GetSubnetRange(ip, mask).broadcast <==> InSubnet(x, ip, mask)
      {
        RangeArithmetic(ip, mask);
        RangeIsBlock(32, ip, x, mask, Not(mask));
      }
    } else {
      var x := HoleFound(32, mask, Not(mask));
      RangeArithmetic(0, mask);
      assert !InSubnet(x, 0, mask);
      assert GetSubnetRange(0, mask).network <= x <= GetSubnetRange(0, mask).broadcast;
    }
  }

  /** With at least two host bits the usable hosts are the addresses of the subnet other than
      network and broadcast (section 3.2.1.3 of RFC 1122). */
  lemma UsableHosts(ip: Address, mask: Address, x: Address)
    requires Contiguous(mask) && Not(mask) >= 2
    ensures var r := GetSubnetRange(ip, mask);
            r.firstHost <= x <= r.lastHost <==> InSubnet(x, ip, mask) && x != r.network && x != r.broadcast
  {
    NotComplement(mask);
    PowersOf2();
    RangeArithmetic(ip, mask);
    RangeIsBlock(32, ip, x, mask, Not(mask));
  }

  // ---------- the scan ----------

  /** The loop counter after n rounds that did not end the loop. */
  function Counter(first: Address, n: nat): Address {
    if n == 0 then first else Plus(Counter(first, n - 1), 1)
  }

  /** Some round finds the counter beyond the last host. */
  ghost predicate ScanEnds(r: SubnetRange) {
    exists n: nat :: Counter(r.firstHost, n) > r.lastHost
  }

  /** All from first to last but the local address, each once, in ascending order. */
  ghost predicate ProbesOf(probes: seq<Address>, first: int, last: int, local: Address) {
    && (forall i, j :: 0 <= i < j < |probes| ==> probes[i] < probes[j])
    && (forall x :: x in probes ==> first <= x <= last && x != local)
    && (forall x: Address :: first <= x <= last && x != local ==> x in probes)
  }

  lemma ProbesNext(probes: seq<Address>, first: int, addr: Address, local: Address)
    requires ProbesOf(probes, first, addr - 1, local) && first <= addr
    ensures ProbesOf(if addr == local then probes else probes + [addr], first, addr, local)
  {
    var next := if addr == local then probes else probes + [addr];
    forall i, j | 0 <= i < j < |next|
      ensures next[i] < next[j]
    {
      assert next[i] == probes[i] && probes[i] in probes;
    }
    forall x: Address | first <= x <= addr && x != local
      ensures x in next
    {
      if x == addr {
        assert next[|next| - 1] == addr;
      } else {
        assert x in probes;
      }
    }
  }

  /** The scan loop of discoverServerByUnicastBruteforce; the rounds are counted for the proof that
      it ends. */
  method Scan(r: SubnetRange, local: Address) returns (probes: seq<Address>, ghost rounds: nat)
    requires r.firstHost <= r.lastHost && r.lastHost != LAST_ADDRESS
    ensures ProbesOf(probes, r.firstHost, r.lastHost, local)
    ensures Counter(r.firstHost, rounds) == r.lastHost + 1
  {
    probes, rounds := [], 0;
    var addr := r.firstHost;
    while addr <= r.lastHost
      invariant r.firstHost <= addr <= r.lastHost + 1
      invariant ProbesOf(probes, r.firstHost, addr - 1, local)
      invariant addr == Counter(r.firstHost, rounds)
      decreases r.lastHost - addr
    {
      ProbesNext(probes, r.firstHost, addr, local);
      NoWrap(addr, 1);
      if addr != local {
        probes := probes + [addr];
      }
      addr := Plus(addr, 1);
      rounds := rounds + 1;
    }
  }

  lemma {:induction false} CounterReaches(first: Address, n: nat)
    requires first + n <= LAST_ADDRESS
    ensures Counter(first, n) == first + n
  {
    if n > 0 {
      CounterReaches(first, n - 1);
    }
  }

  /** The last usable host is the last address of all only for a /32 mask on it. */
  lemma LastHostCase(ip: Address, mask: Address)
    ensures GetSubnetRange(ip, mask).lastHost == LAST_ADDRESS <==> mask == LAST_ADDRESS && ip == LAST_ADDRESS
    ensures GetSubnetRange(ip, mask).firstHost <= GetSubnetRange(ip, mask).lastHost
  {
    RangeArithmetic(ip, mask);
    BroadcastFits(ip, mask);
    AndAtMost(ip, mask);
    AndBelowMask(ip, mask);
    if mask == LAST_ADDRESS && ip == LAST_ADDRESS {
      NotComplement(mask);
      PowersOf2();
      AllOnes(32, ip, mask);
    }
  }

  /** The scan of a subnet ends exactly when the mask and the local address are not both
      255.255.255.255: there the counter wraps for ever. */
  lemma ScanEndsExactly(ip: Address, mask: Address)
    ensures ScanEnds(GetSubnetRange(ip, mask)) <==> !(mask == LAST_ADDRESS && ip == LAST_ADDRESS)
  {
    var r := GetSubnetRange(ip, mask);
    LastHostCase(ip, mask);
    if r.lastHost != LAST_ADDRESS {
      CounterReaches(r.firstHost, r.lastHost + 1 - r.firstHost);
    }
  }

  /** In a subnet with usable hosts the scan probes exactly those other than the local address,
      and so never network or broadcast. */
  lemma ScanProbesUsableHosts(ip: Address, mask: Address, probes: seq<Address>, x: Address)
    requires Contiguous(mask) && GetSubnetRange(ip, mask).hostCount > 0
    requires var r := GetSubnetRange(ip, mask); ProbesOf(probes, r.firstHost, r.lastHost, ip)
    ensures var r := GetSubnetRange(ip, mask);
            x in probes <==> InSubnet(x, ip, mask) && x != r.network && x != r.broadcast && x != ip
  {
    RangeArithmetic(ip, mask);
    UsableHosts(ip, mask, x);
  }

  /** Without usable hosts the scan still probes the network address, unless that is the local one. */
  lemma ScanOfTinySubnet(ip: Address, mask: Address, probes: seq<Address>)
    requires GetSubnetRange(ip, mask).hostCount == 0
    requires var r := GetSubnetRange(ip, mask); ProbesOf(probes, r.firstHost, r.lastHost, ip)
    ensures probes == if And(ip, mask) == ip then [] else [And(ip, mask)]
  {
    RangeArithmetic(ip, mask);
    OnlyOne(probes, GetSubnetRange(ip, mask).network, ip);
  }

  lemma OnlyOne(probes: seq<Address>, network: Address, ip: Address)
    requires ProbesOf(probes, network, network, ip)
    ensures probes == if network == ip then [] else [network]
  {
    assert network != ip ==> network in probes;
    if |probes| > 0 {
      Spread(probes, |probes|);
      assert probes[0] in probes && probes[|probes| - 1] in probes;
    }
  }

  lemma {:induction false} Spread(probes: seq<Address>, n: nat)
    requires forall i, j :: 0 <= i < j < |probes| ==> probes[i] < probes[j]
    requires 0 < n <= |probes|
    ensures probes[n - 1] >= probes[0] + n - 1
  {
    if n > 1 {
      Spread(probes, n - 1);
    }
  }
}
