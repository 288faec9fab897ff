/**
 The 1:1 NAT of a VM: the dnat and snat maps, how public addresses move in and out of them,
 and which source an outgoing packet gets.
 */
module Nat {
  import opened Basics
  import opened Addresses
  import opened Config

  /** The two maps of one family. */
  datatype NatMaps = NatMaps(dnat: map<Literal, Literal>, snat: map<Literal, Literal>)

  const EMPTY_MAPS := NatMaps(map[], map[])

  /**
   nft add element: an element that is there with another value is an error, and stays. A map
   has one family, so an address that is spelled in the other one is an error too.
   */
  function AddElement(m: map<Literal, Literal>, key: Literal, value: Literal): map<Literal, Literal> {
    if key in m || key.Dotted? != value.Dotted? then m else m[key := value]
  }

  /** nft delete element: an element that is not there is an error, and nothing changes. */
  function DeleteElement(m: map<Literal, Literal>, key: Literal): map<Literal, Literal> { m - {key} }

  /** syncNATMap. */
  function Sync(maps: NatMaps, from: Option<Literal>, to: Option<Literal>, guest: Literal): NatMaps {
    var cleared :=
      if from.Some? && from != to
      then NatMaps(DeleteElement(maps.dnat, from.value), DeleteElement(maps.snat, guest))
      else maps;
    if to.Some?
    then NatMaps(AddElement(cleared.dnat, to.value, guest), AddElement(cleared.snat, guest, to.value))
    else cleared
  }

  /** The public address, if it is spelled in the family of its guest. */
  function Usable(public: Option<Literal>, guest: Literal): Option<Literal> {
    if public.Some? && public.value.Dotted? == guest.Dotted? then public else None
  }

  /** The maps that a public address should have: both empty, or one entry each way. */
  function MapsFor(public: Option<Literal>, guest: Literal): NatMaps {
    match Usable(public, guest)
    case None => EMPTY_MAPS
    case Some(a) => NatMaps(map[a := guest], map[guest := a])
  }

  /** Moving from the address that is mapped to any other, or to none, is exact. */
  lemma SyncMoves(from: Option<Literal>, to: Option<Literal>, guest: Literal)
    ensures Sync(MapsFor(from, guest), from, to, guest) == MapsFor(to, guest)
  {
  }

  /** On a new table it does not matter which address the metadata remembers. */
  lemma SyncFresh(from: Option<Literal>, to: Option<Literal>, guest: Literal)
    ensures Sync(EMPTY_MAPS, from, to, guest) == MapsFor(to, guest)
  {
  }

  /**
   Otherwise it does: what the maps hold and the metadata has forgotten stays in them, and the
   guest keeps going out from there.
   */
  lemma SyncForgotten(held: Literal, to: Literal, guest: Literal)
    requires held != to && held.Dotted? == to.Dotted? == guest.Dotted?
    ensures Sync(MapsFor(Some(held), guest), None, Some(to), guest)
         == NatMaps(map[held := guest, to := guest], map[guest := held])
  {
  }

  // ------------------------------------------------------------------
  // Guest addresses as values
  // ------------------------------------------------------------------

  function GroupsValue(g: seq<nat>): nat {
    if g == [] then 0 else GroupsValue(g[..|g| - 1]) * 65536 + g[|g| - 1]
  }

  function Guest4(ip: IPv4): Literal { Dotted(ip.Value()) }

  function Guest6(ip: IPv4): Literal { Colons(GroupsValue(GuestIPv6Value(ip).groups)) }

  lemma ValueInjective(p: IPv4, q: IPv4)
    requires p.Value() == q.Value()
    ensures p == q
  {
    LowOctet((p.a * 256 + p.b) * 256 + p.c, p.d, (q.a * 256 + q.b) * 256 + q.c, q.d);
    LowOctet(p.a * 256 + p.b, p.c, q.a * 256 + q.b, q.c);
    LowOctet(p.a, p.b, q.a, q.b);
  }

  lemma LowOctet(x: int, u: Octet, y: int, v: Octet)
    requires x * 256 + u == y * 256 + v
    ensures x == y && u == v
  {
  }

  lemma Guest6Value(ip: IPv4)
    ensures GroupsValue(GuestIPv6Value(ip).groups) == GroupsValue([0xfd00, 0, 0, 0, 0, 0]) * 0x1_0000_0000 + ip.Value()
  {
    var g := GuestIPv6Value(ip).groups;
    assert g[..7][..6] == [0xfd00, 0, 0, 0, 0, 0] && g[..7][6] == g[6];
    assert GroupsValue(g[..7]) == GroupsValue(g[..7][..6]) * 65536 + g[6];
  }

  /** The addresses that NAT has for the guest a.b.c.d: the big-endian number, alone and after fd00::. */
  lemma GuestLiterals(a: Octet, b: Octet, c: Octet, d: Octet)
    ensures var v := a * 0x100_0000 + b * 0x1_0000 + c * 0x100 + d;
            && Guest4(IPv4(a, b, c, d)) == Dotted(v)
            && Guest6(IPv4(a, b, c, d)) == Colons(0xfd00_0000_0000_0000_0000_0000_0000_0000 + v)
  {
    Guest6Value(IPv4(a, b, c, d));
    var p := [0xfd00, 0, 0, 0, 0, 0];
    assert p[..5] == [0xfd00, 0, 0, 0, 0] && p[..5][..4] == [0xfd00, 0, 0, 0] && p[..5][..4][..3] == [0xfd00, 0, 0];
    assert [0xfd00, 0, 0][..2] == [0xfd00, 0] && [0xfd00, 0][..1] == [0xfd00] && [0xfd00][..0] == [];
    assert GroupsValue([0xfd00]) == 0xfd00;
    assert GroupsValue([0xfd00, 0]) == 0xfd00_0000;
    assert GroupsValue([0xfd00, 0, 0]) == 0xfd00_0000_0000;
    assert GroupsValue(p[..5][..4]) == 0xfd00_0000_0000_0000;
    assert GroupsValue(p[..5]) == 0xfd00_0000_0000_0000_0000;
  }

  /** Different guests have different addresses in both families. */
  lemma GuestsDiffer(p: IPv4, q: IPv4)
    ensures Guest4(p) == Guest4(q) <==> p == q
    ensures Guest6(p) == Guest6(q) <==> p == q
  {
    Guest6Value(p);
    Guest6Value(q);
    if p.Value() == q.Value() {
      ValueInjective(p, q);
    }
  }

  // ------------------------------------------------------------------
  // What Validate leaves to NAT
  // ------------------------------------------------------------------

  /** The addresses of ::ffff:0:0/96, which stand for IPv4 addresses. */
  predicate StandsForIPv4(l: Literal) { l.Colons? && 0xffff_0000_0000 <= l.value <= 0xffff_ffff_ffff }

  /**
   A validated public IPv6 can always be mapped, and is no IPv4 in another spelling. A public IPv4
   can be mapped exactly if it is spelled with dots, and otherwise stands for an IPv4.
   */
  lemma ValidPublicIsUsable(n: NetworkConfig, guest: IPv4)
    requires ValidNetwork(n)
    ensures n.publicIPv6.Some? ==>
              Usable(n.publicIPv6, Guest6(guest)) == n.publicIPv6 && !StandsForIPv4(n.publicIPv6.value)
    ensures n.publicIPv4.Some? ==>
              && (Usable(n.publicIPv4, Guest4(guest)) == n.publicIPv4 <==> n.publicIPv4.value.Dotted?)
              && (n.publicIPv4.value.Dotted? || StandsForIPv4(n.publicIPv4.value))
  {
    Pow2Of32();
  }

  lemma Pow2Of32()
    ensures Pow2(32) == 0x1_0000_0000
  {
    Pow2Values();
    assert Pow2(20) == 32 * Pow2(15);
    assert Pow2(24) == 16 * Pow2(20);
    assert Pow2(28) == 16 * Pow2(24);
  }

  /** A validated network has a guest, which the configured string spells. */
  lemma ValidNetworkHasGuest(n: NetworkConfig)
    requires ValidNetwork(n)
    ensures exists a, b, c, d :: Reading(n.address) == Some(Mapped16(a, b, c, d))
  {
    var ip := GuestIP(n.address).value;
    GuestIPReads(n.address, ip.a, ip.b, ip.c, ip.d);
  }

  lemma Residues(v: nat, w: nat)
    requires 1 <= v <= 16384 && 1 <= w <= 16384 && v != w
    ensures v % 16384 != w % 16384 && v % 32768 != w % 32768
  {
    AcceptedId(v);
    AcceptedId(w);
  }

  /** Two validated networks of different VPCs have disjoint uplinks in both families. */
  lemma ValidNetworksApart(n: NetworkConfig, n': NetworkConfig)
    requires ValidNetwork(n) && ValidNetwork(n') && n.vpc != n'.vpc
    ensures Addresses4(VethAddress4(n.vpc)) !! Addresses4(VethAddress4(n'.vpc))
    ensures Addresses6(VethAddress6(n.vpc)) !! Addresses6(VethAddress6(n'.vpc))
  {
    Residues(n.vpc, n'.vpc);
    VethBlocks(n.vpc, n'.vpc);
    VethBlocks6(n.vpc, n'.vpc);
  }

  // ------------------------------------------------------------------
  // The postrouting hook
  // ------------------------------------------------------------------

  /** Source NAT by map, or to the address of the uplink. */
  datatype NatRule =
    | SnatMap4
    | SnatMap6
    | Masquerade(uplink: string, saddr: Literal)

  datatype NatTable = NatTable(maps4: NatMaps, maps6: NatMaps, postrouting: seq<NatRule>)

  datatype Source = Unchanged | Public(address: Literal) | UplinkAddress

  /** What one rule does to a packet: nothing, or it ends the chain. */
  function Translate(t: NatTable, r: NatRule, oif: string, saddr: Literal): Source {
    match r
    case SnatMap4 => if saddr.Dotted? && saddr in t.maps4.snat then Public(t.maps4.snat[saddr]) else Unchanged
    case SnatMap6 => if saddr.Colons? && saddr in t.maps6.snat then Public(t.maps6.snat[saddr]) else Unchanged
    case Masquerade(uplink, guest) => if oif == uplink && saddr == guest then UplinkAddress else Unchanged
  }

  function Postrouting(t: NatTable, rules: seq<NatRule>, oif: string, saddr: Literal): Source
    decreases |rules|
  {
    if rules == [] then Unchanged
    else
      var s := Translate(t, rules[0], oif, saddr);
      if s != Unchanged then s else Postrouting(t, rules[1..], oif, saddr)
  }

  lemma {:induction false} PostroutingConcat(t: NatTable, a: seq<NatRule>, b: seq<NatRule>, oif: string, saddr: Literal)
    ensures var s := Postrouting(t, a, oif, saddr);
            Postrouting(t, a + b, oif, saddr) == if s != Unchanged then s else Postrouting(t, b, oif, saddr)
    decreases |a|
  {
    if a == [] {
      assert a + b == b;
    } else {
      assert (a + b)[1..] == a[1..] + b;
      PostroutingConcat(t, a[1..], b, oif, saddr);
    }
  }

  /** masqueradeRules. hostIPv6 says whether the host has a global IPv6. */
  function MasqueradeRules(n: NetworkConfig, guest: IPv4, uplink: string, hostIPv6: bool): seq<NatRule> {
    (if n.egressV4 then [Masquerade(uplink, Guest4(guest))] else [])
    + (if n.egressV6 && hostIPv6 then [Masquerade(uplink, Guest6(guest))] else [])
  }

  function PostroutingRules(n: NetworkConfig, guest: IPv4, uplink: string, hostIPv6: bool): seq<NatRule> {
    [SnatMap4, SnatMap6] + MasqueradeRules(n, guest, uplink, hostIPv6)
  }

  /** The NAT part of a VM's table, when its maps hold these public addresses. */
  function VmNat(n: NetworkConfig, guest: IPv4, uplink: string, hostIPv6: bool,
                 public4: Option<Literal>, public6: Option<Literal>): NatTable {
    NatTable(MapsFor(public4, Guest4(guest)), MapsFor(public6, Guest6(guest)),
             PostroutingRules(n, guest, uplink, hostIPv6))
  }

  /**
   The source an outgoing packet should have. From the guest: its public address if it has
   one, on any interface; else the address of the uplink, if it leaves there and the egress
   of its family is on; else its own. From anyone else: unchanged.
   */
  function PromisedSource(n: NetworkConfig, guest: IPv4, uplink: string, hostIPv6: bool,
                          public4: Option<Literal>, public6: Option<Literal>, oif: string, saddr: Literal): Source {
    if saddr == Guest4(guest) then
      if Usable(public4, saddr).Some? then Public(public4.value)
      else if n.egressV4 && oif == uplink then UplinkAddress
      else Unchanged
    else if saddr == Guest6(guest) then
      if Usable(public6, saddr).Some? then Public(public6.value)
      else if n.egressV6 && hostIPv6 && oif == uplink then UplinkAddress
      else Unchanged
    else Unchanged
  }

  /** The rules of a VM, run in order over its maps, give every packet its promised source. */
  lemma OutgoingSource(n: NetworkConfig, guest: IPv4, uplink: string, hostIPv6: bool,
                       public4: Option<Literal>, public6: Option<Literal>, oif: string, saddr: Literal)
    ensures var t := VmNat(n, guest, uplink, hostIPv6, public4, public6);
            Postrouting(t, t.postrouting, oif, saddr)
            == PromisedSource(n, guest, uplink, hostIPv6, public4, public6, oif, saddr)
  {
    var t := VmNat(n, guest, uplink, hostIPv6, public4, public6);
    var m4 := if n.egressV4 then [Masquerade(uplink, Guest4(guest))] else [];
    var m6 := if n.egressV6 && hostIPv6 then [Masquerade(uplink, Guest6(guest))] else [];
    PostroutingConcat(t, [SnatMap4, SnatMap6], m4 + m6, oif, saddr);
    PostroutingConcat(t, [SnatMap4], [SnatMap6], oif, saddr);
    assert [SnatMap4] + [SnatMap6] == [SnatMap4, SnatMap6];
    PostroutingConcat(t, m4, m6, oif, saddr);
    forall r ensures Postrouting(t, [r], oif, saddr) == Translate(t, r, oif, saddr) {
      assert [r][1..] == [];
    }
  }

  // ------------------------------------------------------------------
  // The prerouting hook
  // ------------------------------------------------------------------

  /** The two dnat rules: the new destination, if there is one. */
  function Prerouting(t: NatTable, daddr: Literal): Option<Literal> {
    if daddr.Dotted? && daddr in t.maps4.dnat then Some(t.maps4.dnat[daddr])
    else if daddr.Colons? && daddr in t.maps6.dnat then Some(t.maps6.dnat[daddr])
    else None
  }

  /** Incoming packets reach the guest exactly at its usable public addresses. */
  lemma IncomingTarget(n: NetworkConfig, guest: IPv4, uplink: string, hostIPv6: bool,
                       public4: Option<Literal>, public6: Option<Literal>, daddr: Literal)
    ensures var t := VmNat(n, guest, uplink, hostIPv6, public4, public6);
            Prerouting(t, daddr) ==
              if Usable(public4, Guest4(guest)) == Some(daddr) then Some(Guest4(guest))
              else if Usable(public6, Guest6(guest)) == Some(daddr) then Some(Guest6(guest))
              else None
  {
  }

  /** The two directions are inverse: what comes in at an address goes out from it, and only that. */
  lemma OneToOne(n: NetworkConfig, guest: IPv4, uplink: string, hostIPv6: bool,
                 public4: Option<Literal>, public6: Option<Literal>, oif: string, outside: Literal, inside: Literal)
    ensures var t := VmNat(n, guest, uplink, hostIPv6, public4, public6);
            Prerouting(t, outside) == Some(inside) <==> Postrouting(t, t.postrouting, oif, inside) == Public(outside)
  {
    IncomingTarget(n, guest, uplink, hostIPv6, public4, public6, outside);
    OutgoingSource(n, guest, uplink, hostIPv6, public4, public6, oif, inside);
  }

  // ------------------------------------------------------------------
  // Several VMs in one namespace
  // ------------------------------------------------------------------

  datatype NatVm = NatVm(network: NetworkConfig, guest: IPv4, public4: Option<Literal>, public6: Option<Literal>)

  function TableOf(vm: NatVm, uplink: string, hostIPv6: bool): NatTable {
    VmNat(vm.network, vm.guest, uplink, hostIPv6, vm.public4, vm.public6)
  }

  /** The hook runs the tables in turn, until one has set the source. */
  function HookSource(vms: seq<NatVm>, uplink: string, hostIPv6: bool, oif: string, saddr: Literal): Source
    decreases |vms|
  {
    if vms == [] then Unchanged
    else
      var t := TableOf(vms[0], uplink, hostIPv6);
      var s := Postrouting(t, t.postrouting, oif, saddr);
      if s != Unchanged then s else HookSource(vms[1..], uplink, hostIPv6, oif, saddr)
  }

  lemma {:induction false} NobodyElse(vms: seq<NatVm>, uplink: string, hostIPv6: bool, oif: string, saddr: Literal)
    requires forall i :: 0 <= i < |vms| ==> saddr != Guest4(vms[i].guest) && saddr != Guest6(vms[i].guest)
    ensures HookSource(vms, uplink, hostIPv6, oif, saddr) == Unchanged
    decreases |vms|
  {
    if vms != [] {
      OutgoingSource(vms[0].network, vms[0].guest, uplink, hostIPv6, vms[0].public4, vms[0].public6, oif, saddr);
      NobodyElse(vms[1..], uplink, hostIPv6, oif, saddr);
    }
  }

  /** With distinct guests, the table of the owner alone decides, wherever it stands. */
  lemma {:induction false} OwnerDecides(
      vms: seq<NatVm>, k: nat, uplink: string, hostIPv6: bool, oif: string, saddr: Literal)
    requires k < |vms| && (saddr == Guest4(vms[k].guest) || saddr == Guest6(vms[k].guest))
    requires forall i, j :: 0 <= i < j < |vms| ==> vms[i].guest != vms[j].guest
    ensures var t := TableOf(vms[k], uplink, hostIPv6);
            HookSource(vms, uplink, hostIPv6, oif, saddr) == Postrouting(t, t.postrouting, oif, saddr)
    decreases |vms|
  {
    var first := vms[0];
    if k == 0 {
      forall i | 0 <= i < |vms[1..]|
        ensures saddr != Guest4(vms[1..][i].guest) && saddr != Guest6(vms[1..][i].guest)
      {
        assert vms[1..][i] == vms[i + 1];
        GuestsDiffer(first.guest, vms[i + 1].guest);
      }
      NobodyElse(vms[1..], uplink, hostIPv6, oif, saddr);
    } else {
      GuestsDiffer(first.guest, vms[k].guest);
      OutgoingSource(first.network, first.guest, uplink, hostIPv6, first.public4, first.public6, oif, saddr);
      assert vms[1..][k - 1] == vms[k];
      forall i, j | 0 <= i < j < |vms[1..]| ensures vms[1..][i].guest != vms[1..][j].guest {
        assert vms[1..][i] == vms[i + 1] && vms[1..][j] == vms[j + 1];
      }
      OwnerDecides(vms[1..], k - 1, uplink, hostIPv6, oif, saddr);
    }
  }
}
