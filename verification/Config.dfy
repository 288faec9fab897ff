/** The parts of config.toml that the model reads, and the checks of Validate. */
module Config {
  import opened Basics
  import opened Addresses

  /** An address as it is spelled: dotted for Dotted, with colons for Colons. */
  datatype Literal = Dotted(value: nat) | Colons(value: nat)

  /**
   An address field. Blank is the empty string, Host and Prefix are what net.ParseIP and
   net.ParseCIDR accept, and Unreadable is any other text.
   */
  datatype AddressField = Blank | Host(literal: Literal) | Prefix(literal: Literal, length: nat) | Unreadable

  function Width(l: Literal): nat { if l.Dotted? then 32 else 128 }

  /** net.IP.To4 is not nil: dotted, or the colon form of an IPv4-mapped address. */
  predicate IsTo4(l: Literal) { l.Dotted? || l.value / Pow2(32) == 0xffff }

  predicate Spelled(f: AddressField) { f.Host? || f.Prefix? }

  /** validAddress. */
  predicate ValidAddress(f: AddressField) { Spelled(f) }

  datatype FirewallRule = FirewallRule(
    protocol: string, port: int, portEnd: int, source: AddressField, destination: AddressField)

  datatype FirewallConfig = FirewallConfig(ingress: seq<FirewallRule>, egress: seq<FirewallRule>)

  datatype NetworkConfig = NetworkConfig(
    vpc: int, address: AddressText, egressV4: bool, egressV6: bool, nameservers: seq<AddressField>,
    publicIPv4: Option<Literal>, publicIPv6: Option<Literal>)

  /** listen says whether the listen address resolves. */
  datatype Config = Config(
    listen: bool, cpus: int, memory: int, image: string, snapshot: string, network: NetworkConfig,
    size: int, bandwidth: int, iops: int, sshKeys: seq<string>, firewall: FirewallConfig)

  predicate ValidRule(r: FirewallRule) {
    && (if r.protocol == "tcp" || r.protocol == "udp" then
          1 <= r.port <= 65535 && (r.portEnd != 0 ==> r.port <= r.portEnd <= 65535)
        else if r.protocol == "icmp" || r.protocol == "all" then r.port == 0 && r.portEnd == 0
        else false)
    && (r.source != Blank ==> ValidAddress(r.source))
    && (r.destination != Blank ==> ValidAddress(r.destination))
  }

  predicate ValidFirewall(f: FirewallConfig) {
    && (forall i :: 0 <= i < |f.ingress| ==> ValidRule(f.ingress[i]))
    && (forall i :: 0 <= i < |f.egress| ==> ValidRule(f.egress[i]))
  }

  predicate ValidNetwork(n: NetworkConfig) {
    && 0 < n.vpc <= 16384 && GuestIP(n.address).Some?
    && (n.publicIPv4.Some? ==> IsTo4(n.publicIPv4.value))
    && (n.publicIPv6.Some? ==> !IsTo4(n.publicIPv6.value))
  }

  predicate ValidResources(c: Config) { c.cpus > 0 && c.memory > 0 }

  predicate Validate(c: Config) {
    ValidResources(c) && c.size > 0 && ValidNetwork(c.network) && ValidFirewall(c.firewall) && c.listen
  }

  function BootSourceCount(c: Config): nat {
    (if c.image != "" then 1 else 0) + (if c.snapshot != "" then 1 else 0)
  }
}
