/**
 The addresses of a guest and of a VPC uplink: the guest IPv4, the IPv6 and the MAC
 that are derived from it, and the /31 and /127 pair that links a VPC to root.
 */
module Addresses {
  import opened Basics

  datatype IPv4 = IPv4(a: Octet, b: Octet, c: Octet, d: Octet) {
    function Value(): nat { ((a * 256 + b) * 256 + c) * 256 + d }
  }

  /** An IPv6 address as its eight 16-bit groups (section 2.2 of RFC 4291). */
  datatype IPv6 = IPv6(groups: seq<nat>)

  datatype Ip = V4(v4: IPv4) | V6(v6: IPv6)

  // ------------------------------------------------------------------
  // The guest address, as Go's net package reads the configured string
  // ------------------------------------------------------------------

  /** The 16 bytes that Go keeps for every parsed address. */
  type Ip16 = s: seq<Octet> | |s| == 16 witness seq(16, i => 0)

  /** What net.ParseCIDR and net.ParseIP say about one string. */
  datatype AddressText = AddressText(cidr: Option<Ip16>, ip: Option<Ip16>)

  /** net.IP.To4: the last four bytes, when the rest is the IPv4-mapped prefix. */
  function To4(bytes: Ip16): Option<IPv4> {
    if bytes[..12] == seq(10, i => 0) + [0xff, 0xff]
    then Some(IPv4(bytes[12], bytes[13], bytes[14], bytes[15]))
    else None
  }

  function GuestIP(address: AddressText): Option<IPv4> {
    match address.cidr
    case Some(bytes) => To4(bytes)
    case None =>
      match address.ip
      case Some(bytes) => To4(bytes)
      case None => None
  }

  /** The bytes that Go reads the configured string as: a prefix first, else a bare address. */
  function Reading(address: AddressText): Option<Ip16> {
    if address.cidr.Some? then address.cidr else address.ip
  }

  /** The 16 bytes of the address a.b.c.d: ten zeros, two bytes ff, and the four octets in order. */
  function Mapped16(a: Octet, b: Octet, c: Octet, d: Octet): Ip16 {
    [0, 0, 0, 0, 0, 0, 0, 0, 0, 0, 0xff, 0xff, a, b, c, d]
  }

  /** The guest has the address a.b.c.d exactly if that is what the configured string reads as. */
  lemma GuestIPReads(address: AddressText, a: Octet, b: Octet, c: Octet, d: Octet)
    ensures GuestIP(address) == Some(IPv4(a, b, c, d)) <==> Reading(address) == Some(Mapped16(a, b, c, d))
    ensures GuestIP(address).None? <==> forall w, x, y, z :: Reading(address) != Some(Mapped16(w, x, y, z))
  {
    assert seq(10, i => 0) + [0xff, 0xff] == Mapped16(a, b, c, d)[..12];
    if Reading(address).Some? {
      var bytes := Reading(address).value;
      if bytes[..12] == Mapped16(a, b, c, d)[..12] {
        assert bytes == bytes[..12] + bytes[12..];
        assert bytes == Mapped16(bytes[12], bytes[13], bytes[14], bytes[15]);
      }
    }
  }

  function GuestIPv6Value(ip: IPv4): IPv6 {
    IPv6([0xfd00, 0, 0, 0, 0, 0, ip.a * 256 + ip.b, ip.c * 256 + ip.d])
  }

  lemma GuestIPv6ValueInjective(p: IPv4, q: IPv4)
    requires GuestIPv6Value(p) == GuestIPv6Value(q)
    ensures p == q
  {
  }

  // ------------------------------------------------------------------
  // Text forms
  // ------------------------------------------------------------------

  predicate IsHex(c: char) { '0' <= c <= '9' || 'a' <= c <= 'f' }

  function HexValue(c: char): (v: nat)
    ensures v < 16
  {
    if '0' <= c <= '9' then (c - '0') as nat
    else if 'a' <= c <= 'f' then (c - 'a') as nat + 10
    else 0
  }

  function HexDigit(v: nat): (c: char)
    requires v < 16
    ensures IsHex(c) && HexValue(c) == v
  {
    if v < 10 then '0' + v as char else 'a' + (v - 10) as char
  }

  /** fmt's %02x. */
  function Hex2(v: Octet): (s: string)
    ensures |s| == 2 && IsHex(s[0]) && IsHex(s[1])
    ensures HexValue(s[0]) * 16 + HexValue(s[1]) == v
  {
    [HexDigit(v / 16), HexDigit(v % 16)]
  }

  function MacText(ip: IPv4): string {
    "06:00:" + Hex2(ip.a) + ":" + Hex2(ip.b) + ":" + Hex2(ip.c) + ":" + Hex2(ip.d)
  }

  function IPv6Text(ip: IPv4): string {
    "fd00::" + (Hex2(ip.a) + Hex2(ip.b) + ":" + (Hex2(ip.c) + Hex2(ip.d)))
  }

  function GuestMAC(address: AddressText): string {
    match GuestIP(address) case Some(ip) => MacText(ip) case None => ""
  }

  function GuestIPv6(address: AddressText): string {
    match GuestIP(address) case Some(ip) => IPv6Text(ip) case None => ""
  }

  // ------------------------------------------------------------------
  // The guest script reads its IPv4 back out of the MAC
  // ------------------------------------------------------------------

  /** The pattern ([0-9a-f]{2}:?){n} at the start of s, as the octets it spells. */
  function MatchPairs(s: string, n: nat): Option<seq<Octet>> {
    if n == 0 then Some([])
    else if |s| < 2 || !IsHex(s[0]) || !IsHex(s[1]) then None
    else
      var rest := if |s| > 2 && s[2] == ':' then s[3..] else s[2..];
      match MatchPairs(rest, n - 1)
      case None => None
      case Some(tail) => Some([HexValue(s[0]) * 16 + HexValue(s[1])] + tail)
  }

  /** The leftmost match that follows "06:00:", as the script's grep -Po finds it. */
  function ScriptDecode(line: string): Option<IPv4> {
    if |line| < 6 then None
    else if line[..6] == "06:00:" && MatchPairs(line[6..], 4).Some? then
      var o := MatchPairs(line[6..], 4).value;
      if |o| == 4 then Some(IPv4(o[0], o[1], o[2], o[3])) else None
    else ScriptDecode(line[1..])
  }

  /** The line that `ip link show` prints for the interface of the guest. */
  function LinkLine(mac: string): string {
    "link/ether " + mac + " brd ff:ff:ff:ff:ff:ff"
  }

  lemma {:induction false} ScriptSkips(prefix: string, rest: string)
    requires forall i :: 0 <= i < |prefix| ==> prefix[i] != '0'
    requires |rest| >= 6
    ensures ScriptDecode(prefix + rest) == ScriptDecode(rest)
  {
    if prefix == [] {
      assert prefix + rest == rest;
    } else {
      var line := prefix + rest;
      assert line[..6][0] != '0';
      assert line[1..] == prefix[1..] + rest;
      ScriptSkips(prefix[1..], rest);
    }
  }

  lemma MatchPairStep(v: Octet, sep: string, rest: string, n: nat, tail: seq<Octet>)
    requires sep == ":" || (sep == "" && (rest == "" || rest[0] != ':'))
    requires n > 0 && MatchPairs(rest, n - 1) == Some(tail)
    ensures MatchPairs(Hex2(v) + sep + rest, n) == Some([v] + tail)
  {
  }

  /** Four pairs, each followed by a colon but the last one. */
  function PairsText(ip: IPv4, tail: string): string {
    Hex2(ip.a) + ":" + (Hex2(ip.b) + ":" + (Hex2(ip.c) + ":" + (Hex2(ip.d) + "" + tail)))
  }

  lemma FourPairs(ip: IPv4, tail: string)
    requires tail == "" || tail[0] != ':'
    ensures MatchPairs(PairsText(ip, tail), 4) == Some([ip.a] + ([ip.b] + ([ip.c] + ([ip.d] + []))))
  {
    var p3 := Hex2(ip.d) + "" + tail;
    var p2 := Hex2(ip.c) + ":" + p3;
    var p1 := Hex2(ip.b) + ":" + p2;
    MatchPairStep(ip.d, "", tail, 1, []);
    MatchPairStep(ip.c, ":", p3, 2, [ip.d] + []);
    MatchPairStep(ip.b, ":", p2, 3, [ip.c] + ([ip.d] + []));
    MatchPairStep(ip.a, ":", p1, 4, [ip.b] + ([ip.c] + ([ip.d] + [])));
  }

  lemma MacDecodes(ip: IPv4)
    ensures ScriptDecode(LinkLine(MacText(ip))) == Some(ip)
  {
    var tail := " brd ff:ff:ff:ff:ff:ff";
    var line := "06:00:" + PairsText(ip, tail);
    FourPairs(ip, tail);
    assert LinkLine(MacText(ip)) == "link/ether " + line;
    ScriptSkips("link/ether ", line);
    assert line[..6] == "06:00:" && line[6..] == PairsText(ip, tail);
  }

  /**
   For every address string that the configuration accepts, the guest decodes the MAC that
   Atlas derived from it to the four octets that the string spells.
   */
  lemma GuestReadsItsAddress(address: AddressText, a: Octet, b: Octet, c: Octet, d: Octet)
    requires Reading(address) == Some(Mapped16(a, b, c, d))
    ensures ScriptDecode(LinkLine(GuestMAC(address))) == Some(IPv4(a, b, c, d)) == GuestIP(address)
  {
    GuestIPReads(address, a, b, c, d);
    MacDecodes(IPv4(a, b, c, d));
  }

  // ------------------------------------------------------------------
  // IPv6 text, read with the rules of section 2.2 of RFC 4291
  // ------------------------------------------------------------------

  /** The value of one group of one to four hexadecimal digits. */
  function GroupValue(s: string): Option<nat> {
    if 1 <= |s| <= 4 && HexText(s)
    then Some(Digits(s))
    else None
  }

  function Digits(s: string): nat {
    if s == "" then 0 else Digits(s[..|s| - 1]) * 16 + HexValue(s[|s| - 1])
  }

  /** The groups of a text with no "::", separated by single colons. */
  function Groups(s: string, start: nat): Option<seq<nat>>
    requires start <= |s|
    decreases |s| - start
  {
    var stop := NextColon(s, start);
    match GroupValue(s[start..stop])
    case None => None
    case Some(v) =>
      if stop == |s| then Some([v])
      else
        match Groups(s, stop + 1)
        case None => None
        case Some(rest) => Some([v] + rest)
  }

  function NextColon(s: string, start: nat): (stop: nat)
    requires start <= |s|
    ensures start <= stop <= |s|
    ensures stop < |s| ==> s[stop] == ':'
    ensures forall i :: start <= i < stop ==> s[i] != ':'
    decreases |s| - start
  {
    if start == |s| || s[start] == ':' then start else NextColon(s, start + 1)
  }

  /** left::right, where "::" stands for as many zero groups as are missing. */
  function ParseCompressed(left: string, right: string): Option<IPv6> {
    match Groups(left, 0)
    case None => None
    case Some(l) =>
      match Groups(right, 0)
      case None => None
      case Some(r) =>
        if |l| + |r| >= 8 then None else Some(IPv6(l + seq(8 - |l| - |r|, i => 0) + r))
  }

  const TAP_HOST_4 := IPv4(169, 254, 1, 1)
  const TAP_HOST_6 := IPv6([0xfd00, 0, 0, 0, 0, 0, 0, 1])

  lemma FourDigits(s: string)
    requires |s| == 4
    ensures Digits(s) == ((HexValue(s[0]) * 16 + HexValue(s[1])) * 16 + HexValue(s[2])) * 16 + HexValue(s[3])
  {
    assert s[..3][..2] == s[..2] && s[..2][..1] == s[..1] && s[..1][..0] == "";
    assert s[..3][2] == s[2] && s[..2][1] == s[1] && s[..1][0] == s[0];
    assert Digits(s[..1]) == HexValue(s[0]);
    assert Digits(s[..2]) == Digits(s[..1]) * 16 + HexValue(s[1]);
    assert Digits(s[..3]) == Digits(s[..2]) * 16 + HexValue(s[2]);
  }

  predicate HexText(s: string) {
    forall i :: 0 <= i < |s| ==> IsHex(s[i])
  }

  lemma {:induction false} ColonAt(s: string, start: nat, stop: nat)
    requires start <= stop <= |s|
    requires forall i :: start <= i < stop ==> s[i] != ':'
    requires stop == |s| || s[stop] == ':'
    ensures NextColon(s, start) == stop
    decreases stop - start
  {
  }

  lemma TwoGroups(x: string, y: string)
    requires |x| == 4 && HexText(x) && |y| == 4 && HexText(y)
    ensures Groups(x + ":" + y, 0) == Some([Digits(x), Digits(y)])
  {
    var s := x + ":" + y;
    ColonAt(s, 0, 4);
    ColonAt(s, 5, 9);
    assert s[0..4] == x && s[5..9] == y;
    assert Groups(s, 5) == Some([Digits(y)]);
    assert [Digits(x)] + [Digits(y)] == [Digits(x), Digits(y)];
  }

  lemma OneGroup(x: string)
    requires 1 <= |x| <= 4 && HexText(x)
    ensures Groups(x, 0) == Some([Digits(x)])
  {
    ColonAt(x, 0, |x|);
    assert x[0..|x|] == x;
  }

  lemma PrefixDigits()
    ensures Digits("fd00") == 0xfd00
    ensures Digits("1") == 1
  {
    FourDigits("fd00");
    assert "1"[..0] == "";
  }

  /** What follows the "::" in the derived text. */
  function LowGroups(ip: IPv4): string {
    Hex2(ip.a) + Hex2(ip.b) + ":" + (Hex2(ip.c) + Hex2(ip.d))
  }

  lemma HexPair(v: Octet, w: Octet, s: string)
    requires s == Hex2(v) + Hex2(w)
    ensures HexText(s) && |s| == 4 && Digits(s) == v * 256 + w
  {
    FourDigits(s);
  }

  /** The derived text spells the derived address. */
  lemma IPv6TextMeans(ip: IPv4)
    ensures IPv6Text(ip) == "fd00::" + LowGroups(ip)
    ensures ParseCompressed("fd00", LowGroups(ip)) == Some(GuestIPv6Value(ip))
  {
    var x, y := Hex2(ip.a) + Hex2(ip.b), Hex2(ip.c) + Hex2(ip.d);
    HexPair(ip.a, ip.b, x);
    HexPair(ip.c, ip.d, y);
    OneGroup("fd00");
    PrefixDigits();
    TwoGroups(x, y);
    assert [0xfd00] + seq(8 - 1 - 2, i => 0) + [Digits(x), Digits(y)] == GuestIPv6Value(ip).groups;
  }

  /** So the IPv6 of the guest is fd00:: with the four octets of the configured string at its end. */
  lemma GuestHasIPv6(address: AddressText, a: Octet, b: Octet, c: Octet, d: Octet)
    requires Reading(address) == Some(Mapped16(a, b, c, d))
    ensures |GuestIPv6(address)| > 6 && GuestIPv6(address)[..6] == "fd00::"
    ensures ParseCompressed("fd00", GuestIPv6(address)[6..])
         == Some(IPv6([0xfd00, 0, 0, 0, 0, 0, a * 256 + b, c * 256 + d]))
  {
    GuestIPReads(address, a, b, c, d);
    IPv6TextMeans(IPv4(a, b, c, d));
    assert GuestIPv6(address)[6..] == LowGroups(IPv4(a, b, c, d));
  }

  /**
   Two guests share an IPv6 exactly when they share their IPv4, as text and as address,
   and the derived IPv6 is the fd00::1 of the host exactly for the IPv4 0.0.0.1.
   */
  lemma GuestIPv6Faithful(p: IPv4, q: IPv4)
    ensures IPv6Text(p) == IPv6Text(q) <==> p == q
    ensures GuestIPv6Value(p) == GuestIPv6Value(q) <==> p == q
    ensures ParseCompressed("fd00", "1") == Some(TAP_HOST_6)
    ensures GuestIPv6Value(p) == TAP_HOST_6 <==> p == IPv4(0, 0, 0, 1)
  {
    if IPv6Text(p) == IPv6Text(q) {
      IPv6TextMeans(p);
      IPv6TextMeans(q);
      assert LowGroups(p) == IPv6Text(p)[6..];
      assert LowGroups(q) == IPv6Text(q)[6..];
    }
    if GuestIPv6Value(p) == GuestIPv6Value(q) {
      GuestIPv6ValueInjective(p, q);
    }
    HostIPv6();
    if GuestIPv6Value(p) == TAP_HOST_6 {
      GuestIPv6ValueInjective(p, IPv4(0, 0, 0, 1));
    }
  }

  lemma HostIPv6()
    ensures ParseCompressed("fd00", "1") == Some(TAP_HOST_6)
    ensures GuestIPv6Value(IPv4(0, 0, 0, 1)) == TAP_HOST_6
  {
    OneGroup("fd00");
    OneGroup("1");
    PrefixDigits();
    assert [0xfd00] + seq(8 - 1 - 1, i => 0) + [1] == TAP_HOST_6.groups;
  }

  // ------------------------------------------------------------------
  // The uplink pair of a VPC
  // ------------------------------------------------------------------

  /** Go's & and | on non-negative integers, bit by bit. */
  function And(x: nat, y: nat): nat {
    if x == 0 || y == 0 then 0 else (x % 2) * (y % 2) + 2 * And(x / 2, y / 2)
  }

  function Or(x: nat, y: nat): nat
    decreases x + y
  {
    if x == 0 then y
    else if y == 0 then x
    else (if x % 2 == 1 || y % 2 == 1 then 1 else 0) + 2 * Or(x / 2, y / 2)
  }

  function Pow2(k: nat): (p: nat)
    ensures p > 0
  {
    if k == 0 then 1 else 2 * Pow2(k - 1)
  }

  lemma AndOdd(x: nat, y: nat)
    requires x > 0 && y % 2 == 1
    ensures And(x, y) == x % 2 + 2 * And(x / 2, y / 2)
  {
  }

  lemma {:induction false} AndMask(x: nat, k: nat)
    ensures And(x, Pow2(k) - 1) == x % Pow2(k)
  {
    if k == 0 || x == 0 {
      ZeroMod(Pow2(k));
    } else {
      var p := Pow2(k - 1);
      AndMask(x / 2, k - 1);
      OddHalf(p);
      AndOdd(x, 2 * p - 1);
      HalfMod(x, p);
    }
  }

  lemma ZeroMod(p: nat)
    requires p > 0
    ensures 0 % p == 0
  {
  }

  lemma OddHalf(p: nat)
    requires p > 0
    ensures (2 * p - 1) / 2 == p - 1 && (2 * p - 1) % 2 == 1
  {
  }

  lemma HalfMod(x: nat, p: nat)
    requires p > 0
    ensures x % (2 * p) == x % 2 + 2 * ((x / 2) % p)
  {
    var h := x / 2;
    var q, r := h / p, h % p;
    assert h == q * p + r;
    assert x == (2 * p) * q + (x % 2 + 2 * r);
    ModUnique(x, 2 * p, q, x % 2 + 2 * r);
  }

  lemma ModUnique(x: int, m: int, q: int, r: int)
    requires m > 0 && 0 <= r < m && x == m * q + r
    ensures x % m == r && x / m == q
  {
    var k := x / m - q;
    assert m * k == r - x % m;
    assert k >= 1 ==> m * k >= m;
    assert k <= -1 ==> m * k <= -m;
  }

  lemma {:induction false} OrHighBit(k: nat, y: nat)
    requires y < Pow2(k)
    ensures Or(Pow2(k), y) == Pow2(k) + y
  {
    if k > 0 && y > 0 {
      OrHighBit(k - 1, y / 2);
    }
  }

  datatype Cidr4 = Cidr4(address: IPv4, length: nat)
  datatype Cidr6 = Cidr6(address: IPv6, length: nat)

  /** The address 169.254.x.y whose low half is v, with Go's byte conversions. */
  function LinkLocal(v: nat): IPv4 {
    IPv4(169, 254, (v / 256) % 256, v % 256)
  }

  function VethBase4(vpc: nat): nat {
    Or(0x8000, And(vpc * 2, 0x7FFE))
  }

  function VethBase6(vpc: nat): nat {
    And(vpc * 2, 0xFFFE)
  }

  /** The root and the namespace side of the pair that starts at a base. */
  function Pair4(base: nat): (Cidr4, Cidr4) {
    (Cidr4(LinkLocal(base), 31), Cidr4(LinkLocal(base + 1), 31))
  }

  function Pair6(base: nat): (Cidr6, Cidr6) {
    (Cidr6(UplinkIPv6(base), 127), Cidr6(UplinkIPv6(base + 1), 127))
  }

  function UplinkIPv6(low: nat): (ip: IPv6)
    ensures |ip.groups| == 8 && ip.groups[7] == low
  {
    IPv6([0xfd01, 0, 0, 0, 0, 0, 0, low])
  }

  function VethAddress4(vpc: nat): (Cidr4, Cidr4) { Pair4(VethBase4(vpc)) }

  function VethAddress6(vpc: nat): (Cidr6, Cidr6) { Pair6(VethBase6(vpc)) }

  lemma AndEven(v: nat, k: nat)
    ensures And(v * 2, 2 * (Pow2(k) - 1)) == 2 * (v % Pow2(k))
  {
    AndMask(v, k);
    assert (v * 2) / 2 == v && (2 * (Pow2(k) - 1)) / 2 == Pow2(k) - 1;
  }

  lemma Pow2Values()
    ensures Pow2(14) == 16384 && Pow2(15) == 32768
  {
    assert Pow2(4) == 16;
    assert Pow2(8) == 256;
    assert Pow2(12) == 4096;
  }

  lemma VethBase4Value(vpc: nat)
    ensures VethBase4(vpc) == 32768 + 2 * (vpc % 16384)
  {
    Pow2Values();
    AndEven(vpc, 14);
    OrHighBit(15, 2 * (vpc % 16384));
  }

  lemma VethBase6Value(vpc: nat)
    ensures VethBase6(vpc) == 2 * (vpc % 32768)
  {
    Pow2Values();
    AndEven(vpc, 15);
  }

  function Addresses4(pair: (Cidr4, Cidr4)): set<IPv4> { {pair.0.address, pair.1.address} }

  function Addresses6(pair: (Cidr6, Cidr6)): set<IPv6> { {pair.0.address, pair.1.address} }

  lemma LinkLocalInjective(v: nat, w: nat)
    requires v < 65536 && w < 65536
    ensures LinkLocal(v) == LinkLocal(w) <==> v == w
  {
  }

  lemma LinkLocalValue(v: nat)
    requires v < 65536
    ensures LinkLocal(v).Value() == IPv4(169, 254, 0, 0).Value() + v
  {
  }

  lemma PairHolds(base: nat, low: nat)
    requires base < 65535 && low < 65536
    ensures LinkLocal(low) in Addresses4(Pair4(base)) <==> low == base || low == base + 1
  {
    LinkLocalInjective(low, base);
    LinkLocalInjective(low, base + 1);
  }

  lemma Pairs4(x: nat, y: nat)
    requires x < 65535 && y < 65535 && x % 2 == y % 2 == 0
    ensures Pair4(x) == Pair4(y) <==> x == y
    ensures Addresses4(Pair4(x)) == Addresses4(Pair4(y)) <==> x == y
    ensures x != y ==> Addresses4(Pair4(x)) !! Addresses4(Pair4(y))
  {
    PairHolds(y, x);
    PairHolds(y, x + 1);
    PairHolds(x, x);
    LinkLocalInjective(x, y);
  }

  lemma PairsOfResidues(r: nat, t: nat, p: (Cidr4, Cidr4), q: (Cidr4, Cidr4))
    requires r < 16384 && t < 16384 && p == Pair4(32768 + 2 * r) && q == Pair4(32768 + 2 * t)
    ensures p == q <==> r == t
    ensures Addresses4(p) == Addresses4(q) <==> r == t
    ensures r != t ==> Addresses4(p) !! Addresses4(q)
  {
    Pairs4(32768 + 2 * r, 32768 + 2 * t);
  }

  /** Two VPCs have the same /31 when their ids agree mod 16384, and disjoint ones otherwise. */
  lemma VethBlocks(v: nat, w: nat)
    ensures VethAddress4(v) == VethAddress4(w) <==> v % 16384 == w % 16384
    ensures Addresses4(VethAddress4(v)) == Addresses4(VethAddress4(w)) <==> v % 16384 == w % 16384
    ensures v % 16384 != w % 16384 ==> Addresses4(VethAddress4(v)) !! Addresses4(VethAddress4(w))
  {
    var r, t := v % 16384, w % 16384;
    VethAddress4Value(v, r);
    VethAddress4Value(w, t);
    PairsOfResidues(r, t, VethAddress4(v), VethAddress4(w));
  }

  lemma VethAddress4Value(vpc: nat, r: nat)
    requires r == vpc % 16384
    ensures VethAddress4(vpc) == Pair4(32768 + 2 * r)
  {
    VethBase4Value(vpc);
  }

  /**
   A pair is aligned, lies in 169.254.128.0/17, never holds the address of the TAP, and
   holds the metadata address 169.254.169.254 for one residue of the id: 5375.
   */
  lemma PairPlacement(base: nat)
    requires 32768 <= base < 65536 && base % 2 == 0
    ensures var (root, ns) := Pair4(base);
            && root.length == ns.length == 31
            && root.address.Value() % 2 == 0
            && ns.address.Value() == root.address.Value() + 1
            && IPv4(169, 254, 128, 0).Value() <= root.address.Value()
            && ns.address.Value() <= IPv4(169, 254, 255, 255).Value()
  {
    LinkLocalValue(base);
    LinkLocalValue(base + 1);
  }

  lemma PairReserved(base: nat)
    requires 32768 <= base < 65536 && base % 2 == 0
    ensures TAP_HOST_4 !in Addresses4(Pair4(base))
    ensures IPv4(169, 254, 169, 254) in Addresses4(Pair4(base)) <==> base == 43518
  {
  }

  lemma ResiduePlacement(r: nat, pair: (Cidr4, Cidr4))
    requires r < 16384 && pair == Pair4(32768 + 2 * r)
    ensures pair.0.length == pair.1.length == 31
    ensures pair.0.address.Value() % 2 == 0 && pair.1.address.Value() == pair.0.address.Value() + 1
    ensures IPv4(169, 254, 128, 0).Value() <= pair.0.address.Value()
    ensures pair.1.address.Value() <= IPv4(169, 254, 255, 255).Value()
    ensures TAP_HOST_4 !in Addresses4(pair)
    ensures IPv4(169, 254, 169, 254) in Addresses4(pair) <==> r == 5375
  {
    PairPlacement(32768 + 2 * r);
    PairReserved(32768 + 2 * r);
  }

  lemma VethPlacement(vpc: nat)
    ensures var (root, ns) := VethAddress4(vpc);
            && root.length == ns.length == 31
            && root.address.Value() % 2 == 0
            && ns.address.Value() == root.address.Value() + 1
            && IPv4(169, 254, 128, 0).Value() <= root.address.Value()
            && ns.address.Value() <= IPv4(169, 254, 255, 255).Value()
    ensures TAP_HOST_4 !in Addresses4(VethAddress4(vpc))
    ensures IPv4(169, 254, 169, 254) in Addresses4(VethAddress4(vpc)) <==> vpc % 16384 == 5375
  {
    var r := vpc % 16384;
    VethAddress4Value(vpc, r);
    ResiduePlacement(r, VethAddress4(vpc));
  }

  lemma AcceptedId(v: nat)
    requires 1 <= v <= 16384
    ensures v % 16384 == if v == 16384 then 0 else v
  {
  }

  lemma AcceptedBase(v: nat)
    requires 1 <= v <= 16384
    ensures VethBase4(v) == if v == 16384 then 32768 else 32768 + 2 * v
  {
    VethBase4Value(v);
    AcceptedId(v);
  }

  /** The ids that the configuration accepts are a bijection onto the blocks of the range. */
  lemma VethBijection(base: nat)
    requires 0x8000 <= base < 0x10000 && base % 2 == 0
    ensures exists vpc :: 1 <= vpc <= 16384 && VethBase4(vpc) == base
    ensures forall v, w ::
      1 <= v <= 16384 && 1 <= w <= 16384 && VethBase4(v) == base && VethBase4(w) == base ==> v == w
  {
    var k := (base - 0x8000) / 2;
    AcceptedBase(if k == 0 then 16384 else k);
    forall v, w | 1 <= v <= 16384 && 1 <= w <= 16384 && VethBase4(v) == base && VethBase4(w) == base
      ensures v == w
    {
      AcceptedBase(v);
      AcceptedBase(w);
    }
  }

  lemma Pairs6(x: nat, y: nat)
    requires x % 2 == y % 2 == 0
    ensures Pair6(x) == Pair6(y) <==> x == y
    ensures x != y ==> Addresses6(Pair6(x)) !! Addresses6(Pair6(y))
  {
  }

  /** The /127 pairs keep every accepted id apart, because they agree only mod 32768. */
  lemma VethBlocks6(v: nat, w: nat)
    ensures VethAddress6(v) == VethAddress6(w) <==> v % 32768 == w % 32768
    ensures v % 32768 != w % 32768 ==> Addresses6(VethAddress6(v)) !! Addresses6(VethAddress6(w))
    ensures VethBase6(v) % 2 == 0 && VethBase6(v) + 1 < 0x10000
  {
    VethBase6Value(v);
    VethBase6Value(w);
    Pairs6(VethBase6(v), VethBase6(w));
  }

  /** The two sides of the /127 are neighbours in fd01::/112: the root's is even, and comes first. */
  lemma VethPlacement6(vpc: nat)
    ensures var (root, ns) := VethAddress6(vpc); var base := 2 * (vpc % 32768);
            && root == Cidr6(IPv6([0xfd01, 0, 0, 0, 0, 0, 0, base]), 127)
            && ns == Cidr6(IPv6([0xfd01, 0, 0, 0, 0, 0, 0, base + 1]), 127) && base + 1 < 0x10000
  {
    VethBase6Value(vpc);
  }

  /** And those of the /31, in 169.254.128.0/17. */
  lemma VethPair4(vpc: nat)
    ensures var (root, ns) := VethAddress4(vpc); var base := 0xa9fe8000 + 2 * (vpc % 16384);
            root.address.Value() == base && ns.address.Value() == base + 1 && root.length == ns.length == 31
  {
    VethBase4Value(vpc);
    LinkLocalValue(VethBase4(vpc));
    LinkLocalValue(VethBase4(vpc) + 1);
  }
}
