/** CIDR validation, overlap checks and address allocation of the private networks. */
module Addressing {
  import opened Basics
  import opened Ipv4
  import Text

  datatype CidrError = BadNotation | NotPrivate | BadPrefixLength

  const PRIVATE_RANGES: seq<Net> := [Net(0x0A00_0000, 8), Net(0xAC10_0000, 12), Net(0xC0A8_0000, 16)]

  predicate IsPrivateNetworkAddress(ip: nat) {
    exists i :: 0 <= i < |PRIVATE_RANGES| && PRIVATE_RANGES[i].Contains(ip)
  }

  /** A block with an accepted prefix, all of whose addresses lie in one range of section 3 of RFC 1918. */
  ghost predicate InsideOnePrivateRange(n: Net) {
    exists i :: 0 <= i < |PRIVATE_RANGES| && Within(n, PRIVATE_RANGES[i])
  }

  ghost predicate AcceptedCidr(n: Net) {
    16 <= n.prefix <= 28 && IsPrivateNetworkAddress(n.Network())
  }

  /** `parsed` is what the CIDR parser made of the request text. */
  function ValidateCidr(parsed: Option<Net>): (r: Result<Net, CidrError>) {
    if parsed.None? then Err(BadNotation)
    else if !IsPrivateNetworkAddress(parsed.value.Network()) then Err(NotPrivate)
    else if !(16 <= parsed.value.prefix <= 28) then Err(BadPrefixLength)
    else Ok(parsed.value)
  }

  /** Testing the network address alone already places every address of the block inside one private range. */
  lemma AcceptedBlockIsPrivate(n: Net)
    ensures AcceptedCidr(n) <==> 16 <= n.prefix <= 28 && InsideOnePrivateRange(n)
  {
    if AcceptedCidr(n) {
      var i :| 0 <= i < |PRIVATE_RANGES| && PRIVATE_RANGES[i].Contains(n.Network());
      assert n.Contains(n.Network());
      OverlapIsNesting(PRIVATE_RANGES[i], n);
    }
    if InsideOnePrivateRange(n) {
      var i :| 0 <= i < |PRIVATE_RANGES| && Within(n, PRIVATE_RANGES[i]);
      assert PRIVATE_RANGES[i].Contains(n.Network());
    }
  }

  /** A request is accepted exactly when its whole block is private and its prefix is 16 to 28. */
  lemma ValidateCidrMeaning(parsed: Option<Net>)
    ensures ValidateCidr(parsed).Ok? <==>
            parsed.Some? && 16 <= parsed.value.prefix <= 28 && InsideOnePrivateRange(parsed.value)
    ensures ValidateCidr(parsed).Ok? ==> ValidateCidr(parsed).value == parsed.value
  {
    if parsed.Some? { AcceptedBlockIsPrivate(parsed.value); }
  }

  // --- Which texts are private ------------------------------------------------

  /** Addresses 10.x.x.x, 172.16.x.x to 172.31.x.x and 192.168.x.x as text. */
  predicate PrivateText(s: string) {
    var parts := Text.Split(s, '.');
    |parts| == 4 &&
    (|| parts[0] == "10"
     || (parts[0] == "172" && parts[1] in ["16", "17", "18", "19", "20", "21", "22", "23", "24", "25", "26", "27", "28", "29", "30", "31"])
     || (parts[0] == "192" && parts[1] == "168"))
  }

  lemma RangesAreOctets(ip: Address)
    ensures var o := Octets(ip); IsPrivateNetworkAddress(ip) <==> o.0 == 10 || (o.0 == 172 && 16 <= o.1 <= 31) || (o.0 == 192 && o.1 == 168)
  {
    hide Octets, Net.Contains;
    RangeBounds(ip);
    assert PRIVATE_RANGES[0].Contains(ip) || PRIVATE_RANGES[1].Contains(ip) || PRIVATE_RANGES[2].Contains(ip) <==> IsPrivateNetworkAddress(ip);
  }

  lemma RangeBounds(ip: nat)
    ensures PRIVATE_RANGES[0].Contains(ip) <==> 0x0A00_0000 <= ip <= 0x0AFF_FFFF
    ensures PRIVATE_RANGES[1].Contains(ip) <==> 0xAC10_0000 <= ip <= 0xAC1F_FFFF
    ensures PRIVATE_RANGES[2].Contains(ip) <==> 0xC0A8_0000 <= ip <= 0xC0A8_FFFF
  {
    hide Pow2;
    RangeSizes();
    assert PRIVATE_RANGES[0].Network() == 0x0A00_0000;
    assert PRIVATE_RANGES[1].Network() == 0xAC10_0000;
    assert PRIVATE_RANGES[2].Network() == 0xC0A8_0000;
  }

  lemma RangeSizes()
    ensures Pow2(16) == 0x1_0000 && Pow2(20) == 0x10_0000 && Pow2(24) == 0x100_0000
  {
    assert Pow2(4) == 16 && Pow2(8) == 256;
    Pow2Sum(8, 8);
    Pow2Sum(4, 16);
    Pow2Sum(8, 16);
  }

  lemma SameOctet(a: nat, b: nat)
    requires a < 256 && b < 256
    ensures PrintOctet(a) == PrintOctet(b) <==> a == b
  {
    hide PrintOctet, ParseOctet;
    OctetRoundTrip(a);
    OctetRoundTrip(b);
  }

  lemma SecondOctet(b: nat)
    requires b < 256
    ensures PrintOctet(b) in ["16", "17", "18", "19", "20", "21", "22", "23", "24", "25", "26", "27", "28", "29", "30", "31"] <==> 16 <= b <= 31
  {
  }

  /** The test on the number is the test on the address's text. */
  lemma PrivateIsPrivateText(ip: Address)
    ensures IsPrivateNetworkAddress(ip) <==> PrivateText(PrintAddress(ip))
  {
    hide PrintOctet, IsPrivateNetworkAddress;
    var o := Octets(ip);
    OctetRoundTrip(o.0); OctetRoundTrip(o.1); OctetRoundTrip(o.2); OctetRoundTrip(o.3);
    Text.SplitJoin([PrintOctet(o.0), PrintOctet(o.1), PrintOctet(o.2), PrintOctet(o.3)], '.');
    RangesAreOctets(ip);
    Spelled();
    SameOctet(o.0, 10); SameOctet(o.0, 172); SameOctet(o.0, 192); SameOctet(o.1, 168);
    SecondOctet(o.1);
  }

  lemma Spelled()
    ensures PrintOctet(10) == "10" && PrintOctet(172) == "172" && PrintOctet(192) == "192" && PrintOctet(168) == "168"
  {
  }

  /**
   * A request is accepted exactly when it parses, its prefix is 16 to 28, and each address of its block, written out, begins with
   * 10, with 172 and 16 to 31, or with 192.168. A refused block is reported as not private exactly if its first address is not.
   */
  lemma AcceptedTexts(parsed: Option<Net>)
    ensures ValidateCidr(parsed).Ok? <==>
            parsed.Some? && 16 <= parsed.value.prefix <= 28
            && forall ip: Address :: parsed.value.Contains(ip) ==> PrivateText(PrintAddress(ip))
    ensures parsed.None? ==> ValidateCidr(parsed) == Err(BadNotation)
    ensures parsed.Some? && ValidateCidr(parsed).Err? ==>
              ValidateCidr(parsed) == Err(if PrivateText(PrintAddress(parsed.value.Network())) then BadPrefixLength else NotPrivate)
  {
    hide PrivateText, PrintAddress;
    if parsed.Some? {
      var n := parsed.value;
      AcceptedBlockIsPrivate(n);
      PrivateIsPrivateText(n.Network());
      assert n.Contains(n.Network());
      if AcceptedCidr(n) {
        forall ip: Address | n.Contains(ip)
          ensures PrivateText(PrintAddress(ip))
        {
          InsideIsPrivate(n, ip);
          PrivateIsPrivateText(ip);
        }
      }
    }
  }

  lemma InsideIsPrivate(n: Net, ip: nat)
    requires InsideOnePrivateRange(n) && n.Contains(ip)
    ensures IsPrivateNetworkAddress(ip)
  {
    var i :| 0 <= i < |PRIVATE_RANGES| && Within(n, PRIVATE_RANGES[i]);
    assert PRIVATE_RANGES[i].Contains(ip);
  }

  /** The overlap check walks every existing network of the owner. */
  method CheckNoOverlap(newNet: Net, existing: seq<Net>) returns (ok: bool)
    ensures ok <==> forall i :: 0 <= i < |existing| ==> !Overlap(newNet, existing[i])
  {
    for i := 0 to |existing|
      invariant forall k :: 0 <= k < i ==> !Overlap(newNet, existing[k])
    {
      TwoSidedTestIsOverlap(newNet, existing[i]);
      if newNet.Contains(existing[i].Network()) || existing[i].Contains(newNet.Network()) {
        return false;
      }
    }
    return true;
  }

  // --- Address allocation -------------------------------------------------

  /** Addresses the allocator may hand out: hosts of the block without the first one. */
  predicate Allocatable(n: Net, ip: nat) {
    n.FirstHost() + 1 <= ip <= n.LastHost()
  }

  /** Addresses named by the stored texts; texts that do not parse are skipped. */
  function UsedAddresses(used: seq<string>): set<nat> {
    set i | 0 <= i < |used| && ParseAddress(used[i]).Some? :: ParseAddress(used[i]).value
  }

  function LowestFreeAddress(n: Net, used: set<nat>): Option<Address> {
    BroadcastIsAddress(n);
    LowestFree(n.FirstHost() + 1, n.LastHost(), used)
  }

  /** `used.iter().filter_map(parse).collect()`. */
  method CollectUsed(used: seq<string>) returns (usedSet: set<nat>)
    ensures usedSet == UsedAddresses(used)
  {
    usedSet := {};
    for i := 0 to |used|
      invariant usedSet == UsedAddresses(used[..i])
    {
      var parsed := ParseAddress(used[i]);
      UsedSnoc(used[..i], used[i]);
      assert used[..i] + [used[i]] == used[..i + 1];
      if parsed.Some? {
        usedSet := usedSet + {parsed.value};
      }
    }
    assert used[..|used|] == used;
  }

  method AllocateIp(n: Net, used: seq<string>) returns (r: Option<Address>)
    ensures r == LowestFreeAddress(n, UsedAddresses(used))
  {
    var usedSet := CollectUsed(used);
    BroadcastIsAddress(n);
    r := FindFree(n.FirstHost() + 1, n.LastHost(), usedSet);
  }

  lemma UsedSnoc(used: seq<string>, s: string)
    ensures UsedAddresses(used + [s]) ==
            UsedAddresses(used) + (if ParseAddress(s).Some? then {ParseAddress(s).value} else {})
  {
    var all := used + [s];
    forall a | a in UsedAddresses(used)
      ensures a in UsedAddresses(all)
    {
      var i :| 0 <= i < |used| && ParseAddress(used[i]).Some? && ParseAddress(used[i]).value == a;
      assert all[i] == used[i];
    }
    if ParseAddress(s).Some? { assert all[|used|] == s; }
  }

  /** What an allocated address means: lowest, free, at most two past the number of used addresses. */
  lemma AllocatedAddress(n: Net, used: set<nat>, ip: nat)
    requires LowestFreeAddress(n, used) == Some(ip)
    ensures Allocatable(n, ip) && ip !in used
    ensures forall k :: Allocatable(n, k) && k !in used ==> ip <= k
    ensures n.prefix < 31 ==> ip - n.Network() <= |used| + 2
  {
    RunFitsIn(n.FirstHost() + 1, ip - (n.FirstHost() + 1), used);
  }

  /** Allocation fails exactly when all 2^(32-p) - 3 allocatable addresses are used. */
  lemma AllocationFails(n: Net, used: set<nat>)
    requires n.prefix <= 30
    ensures LowestFreeAddress(n, used).None? <==> forall k :: Allocatable(n, k) ==> k in used
    ensures LowestFreeAddress(n, used).None? ==> |used| >= Pow2(32 - n.prefix) - 3
    ensures n.LastHost() - n.FirstHost() == Pow2(32 - n.prefix) - 3
  {
    Pow2Grows(32 - n.prefix);
    var r := LowestFreeAddress(n, used);
    if r.Some? {
      assert Allocatable(n, r.value);
    } else {
      RunFitsIn(n.FirstHost() + 1, n.LastHost() - n.FirstHost(), used);
    }
  }

  /** Every address handed out of an accepted block is private and is not its network, first host or broadcast address. */
  lemma AllocatedIsPrivate(n: Net, ip: nat)
    requires AcceptedCidr(n) && Allocatable(n, ip)
    ensures exists i :: 0 <= i < |PRIVATE_RANGES| && PRIVATE_RANGES[i].Contains(ip)
    ensures n.Network() + 1 < ip < n.Broadcast()
    ensures n.Contains(ip) && ip < ADDRESS_SPACE
  {
    AcceptedBlockIsPrivate(n);
    BroadcastIsAddress(n);
    Pow2Grows(32 - n.prefix);
    InsideIsPrivate(n, ip);
  }
}
