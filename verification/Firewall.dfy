/**
 The firewall compiler: from the rules of config.toml to the fw chain and the forward chain
 of the VM's table, and the proof that the chains mean what the rules say.
 */
module Firewall {
  import opened Addresses
  import opened Config
  import opened Nft

  // ------------------------------------------------------------------
  // The compiler
  // ------------------------------------------------------------------

  datatype Direction = Ingress | Egress

  /** addrFamily: a field that no parser reads counts as IPv6. */
  function AddrFamily(f: AddressField): Family {
    match f
    case Prefix(l, _) => if IsTo4(l) then IP else IP6
    case Host(l) => if IsTo4(l) then IP else IP6
    case _ => IP6
  }

  function DirectionMatch(d: Direction, tap: string): Match { if d.Ingress? then Oif(tap) else Iif(tap) }

  /** The matches that every line of a rule begins with. */
  function RuleMatch(tap: string, d: Direction, r: FirewallRule): seq<Match> {
    [DirectionMatch(d, tap)]
    + (if r.source != Blank then [Saddr(AddrFamily(r.source), r.source)] else [])
    + (if r.destination != Blank then [Daddr(AddrFamily(r.destination), r.destination)] else [])
  }

  function LastPort(r: FirewallRule): int {
    if r.portEnd != 0 && r.portEnd != r.port then r.portEnd else r.port
  }

  function RuleLines(tap: string, d: Direction, r: FirewallRule): seq<Rule> {
    var m := RuleMatch(tap, d, r);
    if r.protocol == "tcp" then [Rule(m + [TcpDport(r.port, LastPort(r))], Accept)]
    else if r.protocol == "udp" then [Rule(m + [UdpDport(r.port, LastPort(r))], Accept)]
    else if r.protocol == "icmp" then [Rule(m + [IcmpEcho], Accept), Rule(m + [Icmpv6Echo], Accept)]
    else if r.protocol == "all" then [Rule(m, Accept)]
    else []
  }

  function DnsLine(tap: string, ns: AddressField): Rule {
    Rule([Iif(tap), UdpDport(53, 53), Daddr(AddrFamily(ns), ns)], Accept)
  }

  function DnsRules(tap: string, nameservers: seq<AddressField>): seq<Rule> {
    if nameservers == [] then []
    else
      var rest := DnsRules(tap, nameservers[..|nameservers| - 1]);
      var ns := nameservers[|nameservers| - 1];
      if ns == Blank then rest else rest + [DnsLine(tap, ns)]
  }

  function AllLines(tap: string, d: Direction, rules: seq<FirewallRule>): seq<Rule> {
    if rules == [] then []
    else AllLines(tap, d, rules[..|rules| - 1]) + RuleLines(tap, d, rules[|rules| - 1])
  }

  function FwAccepts(tap: string, nameservers: seq<AddressField>, f: FirewallConfig): seq<Rule> {
    DnsRules(tap, nameservers) + AllLines(tap, Ingress, f.ingress) + AllLines(tap, Egress, f.egress)
  }

  /** The whole fw chain. */
  function FwRules(tap: string, nameservers: seq<AddressField>, f: FirewallConfig): seq<Rule> {
    FwAccepts(tap, nameservers, f) + [Rule([], Drop)]
  }

  /** The forward chain, in the order of the script. */
  function ForwardRules(tap: string): seq<Rule> {
    [Rule([TcpSyn], MssClamp), Rule([CtEstablishedRelated], Accept),
     Rule([Iif(tap)], Jump("fw")), Rule([Oif(tap)], Jump("fw"))]
  }

  function VmFilter(tap: string, nameservers: seq<AddressField>, f: FirewallConfig): Filter {
    Filter(ForwardRules(tap), map["fw" := FwRules(tap, nameservers, f)])
  }

  /** dnsRules, as the loop that builds its part of the script. */
  method BuildDnsRules(tap: string, nameservers: seq<AddressField>) returns (rules: seq<Rule>)
    ensures rules == DnsRules(tap, nameservers)
  {
    rules := [];
    for i := 0 to |nameservers|
      invariant rules == DnsRules(tap, nameservers[..i])
    {
      assert nameservers[..i + 1][..i] == nameservers[..i];
      if nameservers[i] != Blank {
        rules := rules + [DnsLine(tap, nameservers[i])];
      }
    }
    assert nameservers[..|nameservers|] == nameservers;
  }

  /** The loop of fwRules over the rules of one direction. */
  method BuildLines(tap: string, d: Direction, list: seq<FirewallRule>) returns (rules: seq<Rule>)
    ensures rules == AllLines(tap, d, list)
  {
    rules := [];
    for i := 0 to |list|
      invariant rules == AllLines(tap, d, list[..i])
    {
      assert list[..i + 1][..i] == list[..i];
      rules := rules + RuleLines(tap, d, list[i]);
    }
    assert list[..|list|] == list;
  }

  method BuildFwRules(tap: string, nameservers: seq<AddressField>, f: FirewallConfig) returns (rules: seq<Rule>)
    ensures rules == FwRules(tap, nameservers, f)
  {
    rules := BuildDnsRules(tap, nameservers);
    var ingress := BuildLines(tap, Ingress, f.ingress);
    var egress := BuildLines(tap, Egress, f.egress);
    rules := rules + ingress + egress + [Rule([], Drop)];
  }

  // ------------------------------------------------------------------
  // What the configuration says
  // ------------------------------------------------------------------

  /** An address is covered by a field: it is that host, or it shares the prefix bits. */
  predicate Covers(f: AddressField, family: Family, address: nat) {
    match f
    case Blank => true
    case Host(l) => (l.Dotted? <==> family.IP?) && address == l.value
    case Prefix(l, n) => (l.Dotted? <==> family.IP?) && n <= Width(l)
                         && address / Pow2(Width(l) - n) == l.value / Pow2(Width(l) - n)
    case Unreadable => false
  }

  /** port alone, or port to portEnd. */
  predicate InPorts(r: FirewallRule, port: int) {
    if r.portEnd == 0 then port == r.port else r.port <= port <= r.portEnd
  }

  predicate EchoRequest(p: Packet) {
    (p.family.IP? && p.transport == Icmp(8)) || (p.family.IP6? && p.transport == Icmpv6(128))
  }

  /** The rule, read as the documentation describes it. */
  predicate Allows(r: FirewallRule, p: Packet) {
    && Covers(r.source, p.family, p.saddr) && Covers(r.destination, p.family, p.daddr)
    && (r.protocol == "tcp" ==> p.transport.Tcp? && InPorts(r, p.transport.dport))
    && (r.protocol == "udp" ==> p.transport.Udp? && InPorts(r, p.transport.dport))
    && (r.protocol == "icmp" ==> EchoRequest(p))
  }

  predicate SomeAllows(rules: seq<FirewallRule>, p: Packet) {
    exists i :: 0 <= i < |rules| && Allows(rules[i], p)
  }

  predicate IsDns(nameservers: seq<AddressField>, p: Packet) {
    p.transport == Udp(53)
    && exists i :: 0 <= i < |nameservers| && nameservers[i] != Blank && Covers(nameservers[i], p.family, p.daddr)
  }

  predicate IsNew(p: Packet) { p.state != Established && p.state != Related }

  /** The verdict that the configuration promises for a new packet. */
  predicate Promised(tap: string, nameservers: seq<AddressField>, f: FirewallConfig, p: Packet) {
    || (p.iif != tap && p.oif != tap)
    || (p.iif == tap && (IsDns(nameservers, p) || SomeAllows(f.egress, p)))
    || (p.oif == tap && SomeAllows(f.ingress, p))
  }

  // ------------------------------------------------------------------
  // When the script loads
  // ------------------------------------------------------------------

  /** A field whose address is IPv4-mapped, spelled with colons. */
  predicate Mapped(f: AddressField) { Spelled(f) && f.literal.Colons? && IsTo4(f.literal) }

  predicate Plain(f: AddressField) { Spelled(f) && !Mapped(f) }

  /** The fields that nft can read. */
  predicate PlainFirewall(nameservers: seq<AddressField>, f: FirewallConfig) {
    && (forall i :: 0 <= i < |nameservers| ==> nameservers[i] == Blank || Plain(nameservers[i]))
    && (forall i :: 0 <= i < |f.ingress| ==> !Mapped(f.ingress[i].source) && !Mapped(f.ingress[i].destination))
    && (forall i :: 0 <= i < |f.egress| ==> !Mapped(f.egress[i].source) && !Mapped(f.egress[i].destination))
  }

  lemma FieldLoads(f: AddressField)
    ensures AddressLoads(AddrFamily(f), f) <==> Plain(f)
  {
  }

  predicate RuleLoads(r: Rule) {
    forall j :: 0 <= j < |r.matches| ==> MatchLoads(r.matches[j])
  }

  lemma LoadConcat(a: seq<Rule>, b: seq<Rule>)
    ensures RulesLoad(a + b) <==> RulesLoad(a) && RulesLoad(b)
  {
    var c := a + b;
    if RulesLoad(c) {
      forall i, j | 0 <= i < |a| && 0 <= j < |a[i].matches| ensures MatchLoads(a[i].matches[j]) {
        assert c[i] == a[i];
      }
      forall i, j | 0 <= i < |b| && 0 <= j < |b[i].matches| ensures MatchLoads(b[i].matches[j]) {
        assert c[|a| + i] == b[i];
      }
    }
  }

  lemma LoadOne(r: Rule)
    ensures RulesLoad([r]) <==> RuleLoads(r)
  {
    if RulesLoad([r]) {
      forall j | 0 <= j < |r.matches| ensures MatchLoads(r.matches[j]) {
        assert MatchLoads([r][0].matches[j]);
      }
    }
  }

  lemma MatchesLoadConcat(a: seq<Match>, b: seq<Match>, v: Verdict)
    ensures RuleLoads(Rule(a + b, v)) <==> RuleLoads(Rule(a, v)) && RuleLoads(Rule(b, v))
  {
    var c := a + b;
    if RuleLoads(Rule(c, v)) {
      forall j | 0 <= j < |a| ensures MatchLoads(a[j]) {
        assert MatchLoads(Rule(c, v).matches[j]);
      }
      forall j | 0 <= j < |b| ensures MatchLoads(b[j]) {
        assert MatchLoads(Rule(c, v).matches[|a| + j]);
      }
    }
  }

  lemma RuleMatchLoads(tap: string, d: Direction, r: FirewallRule, v: Verdict)
    ensures RuleLoads(Rule(RuleMatch(tap, d, r), v))
       <==> (r.source == Blank || Plain(r.source)) && (r.destination == Blank || Plain(r.destination))
  {
    var a := [DirectionMatch(d, tap)];
    var b := if r.source != Blank then [Saddr(AddrFamily(r.source), r.source)] else [];
    var c := if r.destination != Blank then [Daddr(AddrFamily(r.destination), r.destination)] else [];
    MatchesLoadConcat(a + b, c, v);
    MatchesLoadConcat(a, b, v);
    FieldLoads(r.source);
    FieldLoads(r.destination);
    OneMatchLoads(DirectionMatch(d, tap), v);
    OneMatchLoads(Saddr(AddrFamily(r.source), r.source), v);
    OneMatchLoads(Daddr(AddrFamily(r.destination), r.destination), v);
    assert RuleLoads(Rule([], v));
  }

  lemma OneMatchLoads(m: Match, v: Verdict)
    ensures RuleLoads(Rule([m], v)) <==> MatchLoads(m)
  {
    if RuleLoads(Rule([m], v)) {
      assert MatchLoads(Rule([m], v).matches[0]);
    }
  }

  lemma RuleLinesLoad(tap: string, d: Direction, r: FirewallRule)
    requires ValidRule(r)
    ensures RulesLoad(RuleLines(tap, d, r)) <==> !Mapped(r.source) && !Mapped(r.destination)
  {
    var m := RuleMatch(tap, d, r);
    RuleMatchLoads(tap, d, r, Accept);
    if r.protocol == "icmp" {
      MatchesLoadConcat(m, [IcmpEcho], Accept);
      MatchesLoadConcat(m, [Icmpv6Echo], Accept);
      OneMatchLoads(IcmpEcho, Accept);
      OneMatchLoads(Icmpv6Echo, Accept);
      var x, y := Rule(m + [IcmpEcho], Accept), Rule(m + [Icmpv6Echo], Accept);
      LoadOne(x);
      LoadOne(y);
      LoadConcat([x], [y]);
      assert [x, y] == [x] + [y];
    } else if r.protocol == "all" {
      LoadOne(Rule(m, Accept));
    } else {
      var port := if r.protocol == "tcp" then TcpDport(r.port, LastPort(r)) else UdpDport(r.port, LastPort(r));
      MatchesLoadConcat(m, [port], Accept);
      OneMatchLoads(port, Accept);
      LoadOne(Rule(m + [port], Accept));
    }
  }

  lemma {:induction false} AllLinesLoad(tap: string, d: Direction, rules: seq<FirewallRule>)
    requires forall i :: 0 <= i < |rules| ==> ValidRule(rules[i])
    ensures RulesLoad(AllLines(tap, d, rules))
       <==> forall i :: 0 <= i < |rules| ==> !Mapped(rules[i].source) && !Mapped(rules[i].destination)
  {
    if rules != [] {
      var front, r := rules[..|rules| - 1], rules[|rules| - 1];
      AllLinesLoad(tap, d, front);
      RuleLinesLoad(tap, d, r);
      LoadConcat(AllLines(tap, d, front), RuleLines(tap, d, r));
    }
  }

  lemma DnsLineLoads(tap: string, ns: AddressField)
    ensures RulesLoad([DnsLine(tap, ns)]) <==> Plain(ns)
  {
    FieldLoads(ns);
    LoadOne(DnsLine(tap, ns));
    var m := Daddr(AddrFamily(ns), ns);
    MatchesLoadConcat([Iif(tap), UdpDport(53, 53)], [m], Accept);
    assert [Iif(tap), UdpDport(53, 53)] + [m] == DnsLine(tap, ns).matches;
    OneMatchLoads(m, Accept);
  }

  lemma {:induction false} DnsRulesLoad(tap: string, nameservers: seq<AddressField>)
    ensures RulesLoad(DnsRules(tap, nameservers))
       <==> forall i :: 0 <= i < |nameservers| ==> nameservers[i] == Blank || Plain(nameservers[i])
  {
    if nameservers != [] {
      var front, ns := nameservers[..|nameservers| - 1], nameservers[|nameservers| - 1];
      DnsRulesLoad(tap, front);
      DnsLineLoads(tap, ns);
      LoadConcat(DnsRules(tap, front), [DnsLine(tap, ns)]);
    }
  }

  /**
   For a validated firewall, nft takes the fw chain exactly if no address is IPv4-mapped in
   colon form, and every nameserver that is not blank is an address. Validate checks neither.
   */
  lemma FwRulesLoad(tap: string, nameservers: seq<AddressField>, f: FirewallConfig)
    requires ValidFirewall(f)
    ensures RulesLoad(FwRules(tap, nameservers, f)) <==> PlainFirewall(nameservers, f)
  {
    var dns, inn, out := DnsRules(tap, nameservers), AllLines(tap, Ingress, f.ingress), AllLines(tap, Egress, f.egress);
    DnsRulesLoad(tap, nameservers);
    AllLinesLoad(tap, Ingress, f.ingress);
    AllLinesLoad(tap, Egress, f.egress);
    LoadConcat(dns, inn);
    LoadConcat(dns + inn, out);
    LoadConcat(dns + inn + out, [Rule([], Drop)]);
    LoadOne(Rule([], Drop));
  }

  // ------------------------------------------------------------------
  // The compiled chains mean what the configuration says
  // ------------------------------------------------------------------

  lemma AddressMeaning(f: AddressField, family: Family, address: nat)
    requires Plain(f)
    ensures AddressMatches(AddrFamily(f), f, family, address) <==> Covers(f, family, address)
  {
    if f.Prefix? && f.length <= Width(f.literal) {
      PrefixInterval(f.literal.value, Width(f.literal) - f.length, address);
    }
  }

  lemma AllMatchConcat(a: seq<Match>, b: seq<Match>, p: Packet)
    ensures AllMatch(a + b, p) <==> AllMatch(a, p) && AllMatch(b, p)
  {
    var c := a + b;
    if AllMatch(c, p) {
      forall i | 0 <= i < |a| ensures Matches(a[i], p) {
        assert Matches(c[i], p);
      }
      forall i | 0 <= i < |b| ensures Matches(b[i], p) {
        assert Matches(c[|a| + i], p);
      }
    }
  }

  lemma AllMatchOne(m: Match, p: Packet)
    ensures AllMatch([m], p) <==> Matches(m, p)
  {
    if AllMatch([m], p) {
      assert Matches([m][0], p);
    }
  }

  /** The packet goes the way that the lines of this direction ask for. */
  predicate Goes(d: Direction, tap: string, p: Packet) {
    if d.Ingress? then p.oif == tap else p.iif == tap
  }

  lemma RuleMatchMeaning(tap: string, d: Direction, r: FirewallRule, p: Packet)
    requires ValidRule(r) && !Mapped(r.source) && !Mapped(r.destination)
    ensures AllMatch(RuleMatch(tap, d, r), p)
       <==> Goes(d, tap, p) && Covers(r.source, p.family, p.saddr) && Covers(r.destination, p.family, p.daddr)
  {
    var a := [DirectionMatch(d, tap)];
    var b := if r.source != Blank then [Saddr(AddrFamily(r.source), r.source)] else [];
    var c := if r.destination != Blank then [Daddr(AddrFamily(r.destination), r.destination)] else [];
    AllMatchConcat(a + b, c, p);
    AllMatchConcat(a, b, p);
    AllMatchOne(DirectionMatch(d, tap), p);
    AllMatchOne(Saddr(AddrFamily(r.source), r.source), p);
    AllMatchOne(Daddr(AddrFamily(r.destination), r.destination), p);
    if r.source != Blank {
      AddressMeaning(r.source, p.family, p.saddr);
    }
    if r.destination != Blank {
      AddressMeaning(r.destination, p.family, p.daddr);
    }
  }

  lemma OneLine(r: Rule, p: Packet)
    ensures SomeMatches([r], p) <==> AllMatch(r.matches, p)
  {
    if AllMatch(r.matches, p) {
      assert AllMatch([r][0].matches, p);
    }
  }

  /** The lines of one rule match exactly the packets of its direction that it allows. */
  lemma RuleMeaning(tap: string, d: Direction, r: FirewallRule, p: Packet)
    requires ValidRule(r) && !Mapped(r.source) && !Mapped(r.destination)
    ensures SomeMatches(RuleLines(tap, d, r), p) <==> Goes(d, tap, p) && Allows(r, p)
  {
    var m := RuleMatch(tap, d, r);
    RuleMatchMeaning(tap, d, r, p);
    if r.protocol == "icmp" {
      var x, y := Rule(m + [IcmpEcho], Accept), Rule(m + [Icmpv6Echo], Accept);
      assert [x, y] == [x] + [y];
      SomeMatchesConcat([x], [y], p);
      OneLine(x, p);
      OneLine(y, p);
      AllMatchConcat(m, [IcmpEcho], p);
      AllMatchConcat(m, [Icmpv6Echo], p);
      AllMatchOne(IcmpEcho, p);
      AllMatchOne(Icmpv6Echo, p);
    } else if r.protocol == "all" {
      OneLine(Rule(m, Accept), p);
    } else {
      var port := if r.protocol == "tcp" then TcpDport(r.port, LastPort(r)) else UdpDport(r.port, LastPort(r));
      OneLine(Rule(m + [port], Accept), p);
      AllMatchConcat(m, [port], p);
      AllMatchOne(port, p);
    }
  }

  /** A validated rule that names a port allows nothing but TCP or UDP to its ports. */
  lemma PortsAreKept(r: FirewallRule, p: Packet)
    requires ValidRule(r) && (r.port != 0 || r.portEnd != 0) && Allows(r, p)
    ensures (r.protocol == "tcp" && p.transport.Tcp?) || (r.protocol == "udp" && p.transport.Udp?)
    ensures InPorts(r, p.transport.dport)
  {
  }

  lemma SomeAllowsSnoc(front: seq<FirewallRule>, r: FirewallRule, p: Packet)
    ensures SomeAllows(front + [r], p) <==> SomeAllows(front, p) || Allows(r, p)
  {
    var all := front + [r];
    if SomeAllows(front, p) {
      var i :| 0 <= i < |front| && Allows(front[i], p);
      assert Allows(all[i], p);
    }
    if Allows(r, p) {
      assert Allows(all[|front|], p);
    }
  }

  lemma {:induction false} LinesMeaning(tap: string, d: Direction, rules: seq<FirewallRule>, p: Packet)
    requires forall i :: 0 <= i < |rules| ==>
      ValidRule(rules[i]) && !Mapped(rules[i].source) && !Mapped(rules[i].destination)
    ensures SomeMatches(AllLines(tap, d, rules), p) <==> Goes(d, tap, p) && SomeAllows(rules, p)
  {
    if rules != [] {
      var front, r := rules[..|rules| - 1], rules[|rules| - 1];
      LinesMeaning(tap, d, front, p);
      RuleMeaning(tap, d, r, p);
      SomeMatchesConcat(AllLines(tap, d, front), RuleLines(tap, d, r), p);
      SomeAllowsSnoc(front, r, p);
      assert rules == front + [r];
    }
  }

  lemma DnsLineMeaning(tap: string, ns: AddressField, p: Packet)
    requires Plain(ns)
    ensures SomeMatches([DnsLine(tap, ns)], p)
       <==> p.iif == tap && p.transport == Udp(53) && Covers(ns, p.family, p.daddr)
  {
    OneLine(DnsLine(tap, ns), p);
    AddressMeaning(ns, p.family, p.daddr);
    var ms := DnsLine(tap, ns).matches;
    assert AllMatch(ms, p) <==> Matches(ms[0], p) && Matches(ms[1], p) && Matches(ms[2], p);
  }

  lemma {:induction false} DnsMeaning(tap: string, nameservers: seq<AddressField>, p: Packet)
    requires forall i :: 0 <= i < |nameservers| ==> nameservers[i] == Blank || Plain(nameservers[i])
    ensures SomeMatches(DnsRules(tap, nameservers), p) <==> p.iif == tap && IsDns(nameservers, p)
  {
    if nameservers != [] {
      var front, ns := nameservers[..|nameservers| - 1], nameservers[|nameservers| - 1];
      DnsMeaning(tap, front, p);
      IsDnsSnoc(front, ns, p);
      assert nameservers == front + [ns];
      if ns != Blank {
        DnsLineMeaning(tap, ns, p);
        SomeMatchesConcat(DnsRules(tap, front), [DnsLine(tap, ns)], p);
      }
    }
  }

  lemma IsDnsSnoc(front: seq<AddressField>, ns: AddressField, p: Packet)
    ensures IsDns(front + [ns], p)
       <==> IsDns(front, p) || (p.transport == Udp(53) && ns != Blank && Covers(ns, p.family, p.daddr))
  {
    var all := front + [ns];
    if IsDns(front, p) {
      var i :| 0 <= i < |front| && front[i] != Blank && Covers(front[i], p.family, p.daddr);
      assert all[i] != Blank && Covers(all[i], p.family, p.daddr);
    }
    if p.transport == Udp(53) && ns != Blank && Covers(ns, p.family, p.daddr) {
      assert all[|front|] != Blank && Covers(all[|front|], p.family, p.daddr);
    }
  }

  lemma {:induction false} LinesAccept(tap: string, d: Direction, rules: seq<FirewallRule>)
    ensures OnlyAccepts(AllLines(tap, d, rules))
  {
    if rules != [] {
      LinesAccept(tap, d, rules[..|rules| - 1]);
    }
  }

  lemma {:induction false} DnsAccepts(tap: string, nameservers: seq<AddressField>)
    ensures OnlyAccepts(DnsRules(tap, nameservers))
  {
    if nameservers != [] {
      DnsAccepts(tap, nameservers[..|nameservers| - 1]);
    }
  }

  /** What the fw chain accepts, whoever jumps to it. */
  lemma FwMeaning(tap: string, nameservers: seq<AddressField>, f: FirewallConfig, p: Packet, depth: nat)
    requires ValidFirewall(f) && PlainFirewall(nameservers, f)
    ensures Evaluate(VmFilter(tap, nameservers, f).chains, FwRules(tap, nameservers, f), p, depth)
         == Decided((p.iif == tap && (IsDns(nameservers, p) || SomeAllows(f.egress, p)))
                    || (p.oif == tap && SomeAllows(f.ingress, p)))
  {
    var dns, inn, out := DnsRules(tap, nameservers), AllLines(tap, Ingress, f.ingress), AllLines(tap, Egress, f.egress);
    DnsAccepts(tap, nameservers);
    LinesAccept(tap, Ingress, f.ingress);
    LinesAccept(tap, Egress, f.egress);
    DenyByDefault(VmFilter(tap, nameservers, f).chains, dns + inn + out, p, depth);
    SomeMatchesConcat(dns + inn, out, p);
    SomeMatchesConcat(dns, inn, p);
    DnsMeaning(tap, nameservers, p);
    LinesMeaning(tap, Ingress, f.ingress, p);
    LinesMeaning(tap, Egress, f.egress, p);
  }

  // ------------------------------------------------------------------
  // The forward hook
  // ------------------------------------------------------------------

  lemma Skip(chains: map<string, seq<Rule>>, rules: seq<Rule>, p: Packet, depth: nat)
    requires rules != [] && (rules[0].verdict == MssClamp || !AllMatch(rules[0].matches, p))
    ensures Evaluate(chains, rules, p, depth) == Evaluate(chains, rules[1..], p, depth)
  {
  }

  lemma JumpDecides(chains: map<string, seq<Rule>>, rules: seq<Rule>, p: Packet, depth: nat, chain: string)
    requires rules != [] && rules[0].verdict == Jump(chain) && depth > 0 && chain in chains
    requires AllMatch(rules[0].matches, p) && Evaluate(chains, chains[chain], p, depth - 1).Decided?
    ensures Evaluate(chains, rules, p, depth) == Evaluate(chains, chains[chain], p, depth - 1)
  {
  }

  lemma FwNeverClamps(tap: string, nameservers: seq<AddressField>, f: FirewallConfig, p: Packet, depth: nat)
    ensures !Clamps(VmFilter(tap, nameservers, f).chains, FwRules(tap, nameservers, f), p, depth)
  {
    DnsAccepts(tap, nameservers);
    LinesAccept(tap, Ingress, f.ingress);
    LinesAccept(tap, Egress, f.egress);
    DenyNeverClamps(VmFilter(tap, nameservers, f).chains, FwAccepts(tap, nameservers, f), p, depth);
  }

  /**
   The clamp comes before every accept: the MSS is clamped of each TCP packet with a SYN that is
   forwarded, the answer to one, which counts as established, included.
   */
  lemma EverySynIsClamped(tap: string, nameservers: seq<AddressField>, f: FirewallConfig, p: Packet)
    ensures var t := VmFilter(tap, nameservers, f);
            Clamps(t.chains, t.forward, p, JUMP_DEPTH) <==> p.transport.Tcp? && p.transport.syn
  {
    var t := VmFilter(tap, nameservers, f);
    var r := t.forward;
    FwNeverClamps(tap, nameservers, f, p, JUMP_DEPTH - 1);
    AllMatchOne(TcpSyn, p);
    assert r[1..][1..] == r[2..] && r[2..][1..] == r[3..] && r[3..][1..] == [];
    assert !Clamps(t.chains, r[3..], p, JUMP_DEPTH);
    assert !Clamps(t.chains, r[2..], p, JUMP_DEPTH);
    assert !Clamps(t.chains, r[1..], p, JUMP_DEPTH);
  }

  /** Established traffic passes every table, and traffic of other VMs falls off the end. */
  lemma ForwardPasses(tap: string, nameservers: seq<AddressField>, f: FirewallConfig, p: Packet)
    requires !IsNew(p) || (p.iif != tap && p.oif != tap)
    ensures Passes(VmFilter(tap, nameservers, f), p)
  {
    var t := VmFilter(tap, nameservers, f);
    var r := t.forward;
    Skip(t.chains, r, p, JUMP_DEPTH);
    AllMatchOne(CtEstablishedRelated, p);
    assert r[1..][0] == r[1];
    if IsNew(p) {
      AllMatchOne(Iif(tap), p);
      AllMatchOne(Oif(tap), p);
      assert r[1..][1..] == r[2..] && r[2..][1..] == r[3..] && r[3..][1..] == [];
      Skip(t.chains, r[1..], p, JUMP_DEPTH);
      Skip(t.chains, r[2..], p, JUMP_DEPTH);
      Skip(t.chains, r[3..], p, JUMP_DEPTH);
    }
  }

  /** New traffic of this VM gets the verdict of the fw chain, at the first jump that matches. */
  lemma ForwardJumps(tap: string, nameservers: seq<AddressField>, f: FirewallConfig, p: Packet)
    requires IsNew(p) && (p.iif == tap || p.oif == tap)
    requires ValidFirewall(f) && PlainFirewall(nameservers, f)
    ensures var t := VmFilter(tap, nameservers, f);
            Evaluate(t.chains, t.forward, p, JUMP_DEPTH) == Evaluate(t.chains, t.chains["fw"], p, JUMP_DEPTH - 1)
  {
    var t := VmFilter(tap, nameservers, f);
    var r := t.forward;
    FwMeaning(tap, nameservers, f, p, JUMP_DEPTH - 1);
    assert r[1..][1..] == r[2..] && r[2..][1..] == r[3..];
    AllMatchOne(CtEstablishedRelated, p);
    AllMatchOne(Iif(tap), p);
    AllMatchOne(Oif(tap), p);
    Skip(t.chains, r, p, JUMP_DEPTH);
    Skip(t.chains, r[1..], p, JUMP_DEPTH);
    if p.iif == tap {
      JumpDecides(t.chains, r[2..], p, JUMP_DEPTH, "fw");
    } else {
      Skip(t.chains, r[2..], p, JUMP_DEPTH);
      JumpDecides(t.chains, r[3..], p, JUMP_DEPTH, "fw");
    }
  }

  /** Compilation preserves meaning: the table passes a new packet exactly as the rules promise. */
  lemma CompilationPreservesMeaning(tap: string, nameservers: seq<AddressField>, f: FirewallConfig, p: Packet)
    requires ValidFirewall(f) && RulesLoad(FwRules(tap, nameservers, f)) && IsNew(p)
    ensures Passes(VmFilter(tap, nameservers, f), p) <==> Promised(tap, nameservers, f, p)
  {
    FwRulesLoad(tap, nameservers, f);
    if p.iif == tap || p.oif == tap {
      ForwardJumps(tap, nameservers, f, p);
      FwMeaning(tap, nameservers, f, p, JUMP_DEPTH - 1);
    } else {
      ForwardPasses(tap, nameservers, f, p);
    }
  }

  // ------------------------------------------------------------------
  // Several VMs in one namespace
  // ------------------------------------------------------------------

  datatype Vm = Vm(tap: string, nameservers: seq<AddressField>, firewall: FirewallConfig)

  function Filters(vms: seq<Vm>): seq<Filter> {
    seq(|vms|, i requires 0 <= i < |vms| => VmFilter(vms[i].tap, vms[i].nameservers, vms[i].firewall))
  }

  /** Every VM has a validated configuration that loaded, and its own TAP. */
  predicate Installed(vms: seq<Vm>) {
    && (forall i :: 0 <= i < |vms| ==>
          ValidFirewall(vms[i].firewall) && RulesLoad(FwRules(vms[i].tap, vms[i].nameservers, vms[i].firewall)))
    && (forall i, j :: 0 <= i < j < |vms| ==> vms[i].tap != vms[j].tap)
  }

  lemma DeliveredPromised(vms: seq<Vm>, p: Packet)
    requires Installed(vms) && IsNew(p)
    ensures Delivered(Filters(vms), p)
       <==> forall i :: 0 <= i < |vms| ==> Promised(vms[i].tap, vms[i].nameservers, vms[i].firewall, p)
  {
    DeliveredIs(Filters(vms), p);
    forall i | 0 <= i < |vms|
      ensures Passes(Filters(vms)[i], p) <==> Promised(vms[i].tap, vms[i].nameservers, vms[i].firewall, p)
    {
      CompilationPreservesMeaning(vms[i].tap, vms[i].nameservers, vms[i].firewall, p);
    }
  }

  predicate MayLeave(vm: Vm, p: Packet) { IsDns(vm.nameservers, p) || SomeAllows(vm.firewall.egress, p) }

  predicate MayEnter(vm: Vm, p: Packet) { SomeAllows(vm.firewall.ingress, p) }

  /**
   The tables compose. A new packet is delivered exactly if the VM it comes from, if any, lets
   it leave, and the VM it goes to, if any, lets it in; a packet from a VM to itself needs
   only one of the two. No other VM of the namespace has a say.
   */
  lemma TablesCompose(vms: seq<Vm>, p: Packet)
    requires Installed(vms) && IsNew(p)
    ensures Delivered(Filters(vms), p) <==>
      forall i :: 0 <= i < |vms| ==>
        && (p.iif == vms[i].tap && p.oif != vms[i].tap ==> MayLeave(vms[i], p))
        && (p.oif == vms[i].tap && p.iif != vms[i].tap ==> MayEnter(vms[i], p))
        && (p.iif == vms[i].tap && p.oif == vms[i].tap ==> MayLeave(vms[i], p) || MayEnter(vms[i], p))
  {
    DeliveredPromised(vms, p);
    forall i | 0 <= i < |vms|
      ensures Promised(vms[i].tap, vms[i].nameservers, vms[i].firewall, p) <==>
        && (p.iif == vms[i].tap && p.oif != vms[i].tap ==> MayLeave(vms[i], p))
        && (p.oif == vms[i].tap && p.iif != vms[i].tap ==> MayEnter(vms[i], p))
        && (p.iif == vms[i].tap && p.oif == vms[i].tap ==> MayLeave(vms[i], p) || MayEnter(vms[i], p))
    {
    }
  }

  /** From VM i to VM j: the egress of i and the ingress of j, and nothing else. */
  lemma BetweenTwoVms(vms: seq<Vm>, i: nat, j: nat, p: Packet)
    requires Installed(vms) && IsNew(p) && i < |vms| && j < |vms| && i != j
    requires p.iif == vms[i].tap && p.oif == vms[j].tap
    ensures Delivered(Filters(vms), p) <==> MayLeave(vms[i], p) && MayEnter(vms[j], p)
  {
    TablesCompose(vms, p);
    assert vms[i].tap != vms[j].tap;
    if MayLeave(vms[i], p) && MayEnter(vms[j], p) {
      forall k | 0 <= k < |vms| && k != i && k != j ensures vms[k].tap != p.iif && vms[k].tap != p.oif {
      }
    }
  }
}
