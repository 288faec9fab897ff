/**
 The part of nftables that Atlas uses, with its meaning: what a rule matches, how a chain
 and a jump decide, and how the tables of one hook combine.
 */
module Nft {
  import opened Addresses
  import opened Config

  datatype Family = IP | IP6

  datatype Transport =
    | Tcp(dport: nat, syn: bool)
    | Udp(dport: nat)
    | Icmp(kind: nat)
    | Icmpv6(kind: nat)
    | OtherTransport(number: nat)

  datatype CtState = New | Established | Related | Invalid | Untracked

  /** A packet at the forward hook: the addresses are of one family. */
  datatype Packet = Packet(
    iif: string, oif: string, family: Family, saddr: nat, daddr: nat, transport: Transport, state: CtState)

  const ECHO_REQUEST_4 := 8
  const ECHO_REQUEST_6 := 128

  /** One match of a rule. An address match names the family in its keyword. */
  datatype Match =
    | Iif(device: string)
    | Oif(device: string)
    | Saddr(keyword: Family, field: AddressField)
    | Daddr(keyword: Family, field: AddressField)
    | TcpDport(low: int, high: int)
    | UdpDport(low: int, high: int)
    | IcmpEcho
    | Icmpv6Echo
    | CtEstablishedRelated
    | TcpSyn

  datatype Verdict = Accept | Drop | Jump(chain: string) | MssClamp

  datatype Rule = Rule(matches: seq<Match>, verdict: Verdict)

  // ------------------------------------------------------------------
  // Loading
  // ------------------------------------------------------------------

  /** The keyword must be of the family in which the address is spelled. */
  predicate AddressLoads(keyword: Family, field: AddressField) {
    match field
    case Host(l) => l.Dotted? <==> keyword.IP?
    case Prefix(l, _) => l.Dotted? <==> keyword.IP?
    case _ => false
  }

  predicate MatchLoads(m: Match) {
    match m
    case Saddr(k, f) => AddressLoads(k, f)
    case Daddr(k, f) => AddressLoads(k, f)
    case TcpDport(low, high) => 0 <= low <= high <= 65535
    case UdpDport(low, high) => 0 <= low <= high <= 65535
    case _ => true
  }

  /** A script is taken as a whole, or refused as a whole. */
  predicate RulesLoad(rules: seq<Rule>) {
    forall i, j :: 0 <= i < |rules| && 0 <= j < |rules[i].matches| ==> MatchLoads(rules[i].matches[j])
  }

  // ------------------------------------------------------------------
  // Matching
  // ------------------------------------------------------------------

  /** The interval that nft compares an address with: all the addresses under the prefix. */
  function Low(value: nat, free: nat): int { value / Pow2(free) * Pow2(free) }

  function High(value: nat, free: nat): int { Low(value, free) + Pow2(free) - 1 }

  predicate AddressMatches(keyword: Family, field: AddressField, family: Family, address: nat) {
    && family == keyword
    && match field
       case Host(l) => address == l.value
       case Prefix(l, n) => n <= Width(l) && Low(l.value, Width(l) - n) <= address <= High(l.value, Width(l) - n)
       case _ => false
  }

  predicate Matches(m: Match, p: Packet) {
    match m
    case Iif(d) => p.iif == d
    case Oif(d) => p.oif == d
    case Saddr(k, f) => AddressMatches(k, f, p.family, p.saddr)
    case Daddr(k, f) => AddressMatches(k, f, p.family, p.daddr)
    case TcpDport(low, high) => p.transport.Tcp? && low <= p.transport.dport <= high
    case UdpDport(low, high) => p.transport.Udp? && low <= p.transport.dport <= high
    case IcmpEcho => p.family == IP && p.transport == Icmp(ECHO_REQUEST_4)
    case Icmpv6Echo => p.family == IP6 && p.transport == Icmpv6(ECHO_REQUEST_6)
    case CtEstablishedRelated => p.state == Established || p.state == Related
    case TcpSyn => p.transport.Tcp? && p.transport.syn
  }

  predicate AllMatch(ms: seq<Match>, p: Packet) {
    forall i :: 0 <= i < |ms| ==> Matches(ms[i], p)
  }

  // ------------------------------------------------------------------
  // Chains
  // ------------------------------------------------------------------

  /** A verdict that ends the table, or the end of the chain. */
  datatype Result = Decided(accept: bool) | FellOff

  /** A jump comes back to the next rule unless the chain it goes to decides. */
  function Evaluate(chains: map<string, seq<Rule>>, rules: seq<Rule>, p: Packet, depth: nat): Result
    decreases depth, |rules|
  {
    if rules == [] then FellOff
    else if !AllMatch(rules[0].matches, p) then Evaluate(chains, rules[1..], p, depth)
    else
      match rules[0].verdict
      case Accept => Decided(true)
      case Drop => Decided(false)
      case MssClamp => Evaluate(chains, rules[1..], p, depth)
      case Jump(chain) =>
        if depth == 0 || chain !in chains then Evaluate(chains, rules[1..], p, depth)
        else
          var inner := Evaluate(chains, chains[chain], p, depth - 1);
          if inner.Decided? then inner else Evaluate(chains, rules[1..], p, depth)
  }

  /** The packet meets a rule that clamps its MSS before the table has decided about it. */
  function Clamps(chains: map<string, seq<Rule>>, rules: seq<Rule>, p: Packet, depth: nat): bool
    decreases depth, |rules|
  {
    if rules == [] then false
    else if !AllMatch(rules[0].matches, p) then Clamps(chains, rules[1..], p, depth)
    else
      match rules[0].verdict
      case Accept => false
      case Drop => false
      case MssClamp => true
      case Jump(chain) =>
        if depth == 0 || chain !in chains then Clamps(chains, rules[1..], p, depth)
        else
          || Clamps(chains, chains[chain], p, depth - 1)
          || (Evaluate(chains, chains[chain], p, depth - 1) == FellOff && Clamps(chains, rules[1..], p, depth))
  }

  /** The jump stack of the kernel. */
  const JUMP_DEPTH := 16

  /** A table with a forward hook of policy accept, and its regular chains. */
  datatype Filter = Filter(forward: seq<Rule>, chains: map<string, seq<Rule>>)

  predicate Passes(t: Filter, p: Packet) {
    var r := Evaluate(t.chains, t.forward, p, JUMP_DEPTH);
    r == FellOff || r == Decided(true)
  }

  /** Every table of the hook sees the packet: accept ends one table, drop ends the packet. */
  predicate Delivered(tables: seq<Filter>, p: Packet)
    decreases |tables|
  {
    if tables == [] then true
    else if Passes(tables[0], p) then Delivered(tables[1..], p)
    else false
  }

  lemma {:induction false} DeliveredIs(tables: seq<Filter>, p: Packet)
    ensures Delivered(tables, p) <==> forall i :: 0 <= i < |tables| ==> Passes(tables[i], p)
    decreases |tables|
  {
    if tables != [] {
      DeliveredIs(tables[1..], p);
      assert forall i :: 1 <= i < |tables| ==> tables[i] == tables[1..][i - 1];
      if Delivered(tables, p) {
        forall i | 0 <= i < |tables| ensures Passes(tables[i], p) {
          if i > 0 {
            assert Passes(tables[1..][i - 1], p);
          }
        }
      }
    }
  }

  // ------------------------------------------------------------------
  // Chains of accept rules that end in a drop
  // ------------------------------------------------------------------

  predicate OnlyAccepts(rules: seq<Rule>) {
    forall i :: 0 <= i < |rules| ==> rules[i].verdict == Accept
  }

  predicate SomeMatches(rules: seq<Rule>, p: Packet) {
    exists i :: 0 <= i < |rules| && AllMatch(rules[i].matches, p)
  }

  /** Deny by default: such a chain always decides, and accepts exactly what some rule matches. */
  lemma {:induction false} DenyByDefault(chains: map<string, seq<Rule>>, rules: seq<Rule>, p: Packet, depth: nat)
    requires OnlyAccepts(rules)
    ensures Evaluate(chains, rules + [Rule([], Drop)], p, depth) == Decided(SomeMatches(rules, p))
    decreases |rules|
  {
    var all := rules + [Rule([], Drop)];
    if rules == [] {
      assert all[0] == Rule([], Drop);
      assert AllMatch(all[0].matches, p);
      assert !SomeMatches(rules, p);
    } else {
      assert all[1..] == rules[1..] + [Rule([], Drop)];
      assert all[0] == rules[0];
      DenyByDefault(chains, rules[1..], p, depth);
      SomeMatchesCons(rules, p);
    }
  }

  lemma {:induction false} DenyNeverClamps(chains: map<string, seq<Rule>>, rules: seq<Rule>, p: Packet, depth: nat)
    requires OnlyAccepts(rules)
    ensures !Clamps(chains, rules + [Rule([], Drop)], p, depth)
    decreases |rules|
  {
    var all := rules + [Rule([], Drop)];
    if rules == [] {
      assert all[0] == Rule([], Drop);
    } else {
      assert all[1..] == rules[1..] + [Rule([], Drop)];
      DenyNeverClamps(chains, rules[1..], p, depth);
    }
  }

  lemma SomeMatchesCons(rules: seq<Rule>, p: Packet)
    requires rules != []
    ensures SomeMatches(rules, p) <==> AllMatch(rules[0].matches, p) || SomeMatches(rules[1..], p)
  {
  }

  lemma SomeMatchesConcat(a: seq<Rule>, b: seq<Rule>, p: Packet)
    ensures SomeMatches(a + b, p) <==> SomeMatches(a, p) || SomeMatches(b, p)
  {
    var c := a + b;
    if SomeMatches(a, p) {
      var i :| 0 <= i < |a| && AllMatch(a[i].matches, p);
      assert AllMatch(c[i].matches, p);
    }
    if SomeMatches(b, p) {
      var i :| 0 <= i < |b| && AllMatch(b[i].matches, p);
      assert AllMatch(c[|a| + i].matches, p);
    }
    if SomeMatches(c, p) {
      var i :| 0 <= i < |c| && AllMatch(c[i].matches, p);
      if i < |a| {
        assert AllMatch(a[i].matches, p);
      } else {
        assert AllMatch(b[i - |a|].matches, p);
      }
    }
  }

  // ------------------------------------------------------------------
  // Prefixes
  // ------------------------------------------------------------------

  /** The interval of a prefix holds exactly the addresses that share its leading bits. */
  lemma PrefixInterval(value: nat, free: nat, address: nat)
    ensures Low(value, free) <= address <= High(value, free) <==> address / Pow2(free) == value / Pow2(free)
  {
    QuotientInterval(Pow2(free), value / Pow2(free), address);
  }

  lemma QuotientInterval(b: int, q: int, x: int)
    requires b > 0
    ensures q * b <= x <= q * b + b - 1 <==> x / b == q
  {
    var a, r := x / b, x % b;
    assert x == a * b + r;
    if a > q {
      MulLe(q + 1, a, b);
      assert (q + 1) * b == q * b + b;
    } else if a < q {
      MulLe(a + 1, q, b);
      assert (a + 1) * b == a * b + b;
    }
  }

  lemma MulLe(x: int, y: int, b: int)
    requires x <= y && b > 0
    ensures x * b <= y * b
  {
  }
}
