/**
 The Privacy Envelope: its durable authority, the nftables composition derived from it, and what
 that composition lets through.
 */
module Envelope {
  import opened Wrappers
  import opened SortedLists
  import opened Intents
  import opened Addresses
  import Text

  const ENDPOINT_VERSION := 1
  const MARKED_VERSION := 2
  const CANDIDATE_LIMIT := 16
  const EPOCH_LIMIT := 0x1_0000_0000_0000_0000

  type U32 = x: nat | x < 0x1_0000_0000

  // ---------------------------------------------------------------- durable records

  datatype ProtectionState = Unarmed | Arming | Armed | Removing

  datatype Protection = Protection(
    state: ProtectionState,
    version: nat,
    family: string,
    table: string,
    tun: string,
    bootstrap: seq<string>,
    previousBootstrap: seq<string>,
    marks: seq<U32>,
    previousMarks: seq<U32>
  )

  datatype Handoff = Unset | Block | Ask | StopKnown | ReplacePodlaz

  datatype Request = Request(mode: string, profile: string, handoff: Handoff)

  datatype Replacement = Replacement(previousRequest: Request, previousProtection: Option<Protection>)

  datatype Session = Session(
    boot: string,
    id: string,
    epoch: nat,
    intent: Intent,
    request: Request,
    protection: Option<Protection>,
    replacement: Option<Replacement>
  )

  /** What the planner hands to the envelope: the TUN interface, the server address, the egress mark. */
  datatype TunPlan = TunPlan(tun: string, server: string, mark: U32)

  predicate EquivalentIgnoringHandoff(a: Request, b: Request) {
    a.(handoff := Unset) == b.(handoff := Unset)
  }

  // ---------------------------------------------------------------- validators

  predicate IsHex(c: char) {
    '0' <= c <= '9' || 'a' <= c <= 'f'
  }

  predicate AllHex(s: string) {
    forall i :: 0 <= i < |s| ==> IsHex(s[i])
  }

  predicate ValidId(id: string) {
    |id| == 32 && AllHex(id)
  }

  predicate ValidTable(t: string) {
    && |t| >= 22 && t[..10] == "podlaz_pe_" && AllHex(t[10..22])
    && (|t| == 22 || (24 <= |t| <= 26 && t[22] == '_' && '1' <= t[23] <= '9' && Text.AllDigits(t[24..])))
  }

  predicate ValidInterface(name: string) {
    && 0 < |name| <= 15 && name != "." && name != ".."
    && forall i :: 0 <= i < |name| ==> InterfaceChar(name[i])
  }

  predicate InterfaceChar(c: char) {
    'A' <= c <= 'Z' || 'a' <= c <= 'z' || '0' <= c <= '9' || c == '_' || c == '.' || c == ':' || c == '-'
  }

  predicate ValidBootstrap(values: seq<string>) {
    && values != []
    && (forall i :: 0 <= i < |values| ==> ParseIPv4(values[i]) == Some(values[i]))
    && (forall i, j :: 0 <= i < j < |values| ==> values[i] != values[j])
  }

  predicate MarkLess(x: U32, y: U32) {
    x < y
  }

  predicate ValidMarks(values: seq<U32>) {
    values != [] && StrictlySorted(MarkLess, values) && 0 !in values
  }

  predicate ValidIdentity(p: Protection) {
    p.family == "inet" && ValidTable(p.table) && ValidInterface(p.tun)
  }

  predicate ValidComposition(p: Protection) {
    || (p.version == ENDPOINT_VERSION && ValidBootstrap(p.bootstrap) && p.marks == [] && p.previousMarks == [])
    || (p.version == MARKED_VERSION && ValidMarks(p.marks) && p.bootstrap == [] && p.previousBootstrap == [])
  }

  predicate ValidPrevious(p: Protection) {
    && (p.previousBootstrap != [] ==> p.state.Arming? && ValidBootstrap(p.previousBootstrap))
    && (p.previousMarks != [] ==> p.state.Arming? && ValidMarks(p.previousMarks))
  }

  predicate ValidProtection(p: Protection) {
    ValidIdentity(p) && ValidComposition(p) && ValidPrevious(p)
  }

  predicate ValidRequest(r: Request) {
    r.mode != "" && r.profile != ""
  }

  predicate SameIdentity(a: Protection, b: Protection) {
    a.version == b.version && a.family == b.family && a.table == b.table && a.tun == b.tun
  }

  predicate ValidReplacement(s: Session, r: Replacement) {
    && s.request.handoff.ReplacePodlaz? && ValidRequest(r.previousRequest)
    && r.previousProtection.Some? && ValidProtection(r.previousProtection.value)
    && s.protection.Some? && SameIdentity(s.protection.value, r.previousProtection.value)
  }

  predicate ValidSession(s: Session) {
    && s.boot != "" && ValidId(s.id) && s.epoch < EPOCH_LIMIT && ValidRequest(s.request)
    && (s.protection.Some? ==> ValidProtection(s.protection.value))
    && (s.replacement.Some? ==> ValidReplacement(s, s.replacement.value))
  }

  // ---------------------------------------------------------------- composition

  datatype Match =
    | OutInterface(name: string)
    | Destination(address: string)
    | MarkIs(value: U32)
    | Dhcp4
    | Dhcp6
    | LinkControl
    | Everything

  datatype Rule = Rule(match_: Match, accept: bool)

  /** One output chain, policy accept. */
  datatype Plan = Plan(family: string, table: string, rules: seq<Rule>)

  function EndpointRules(endpoints: seq<string>): seq<Rule> {
    seq(|endpoints|, i requires 0 <= i < |endpoints| => Rule(Destination(endpoints[i]), true))
  }

  function MarkRules(marks: seq<U32>): seq<Rule> {
    seq(|marks|, i requires 0 <= i < |marks| => Rule(MarkIs(marks[i]), true))
  }

  const CONTROL_RULES := [Rule(Dhcp4, true), Rule(Dhcp6, true), Rule(LinkControl, true), Rule(Everything, false)]

  function Rules(tun: string, bootstrap: seq<string>, marks: seq<U32>): seq<Rule> {
    [Rule(OutInterface("lo"), true), Rule(OutInterface(tun), true)]
    + EndpointRules(bootstrap) + MarkRules(marks) + CONTROL_RULES
  }

  /** The composition an authority stands for; the validator runs before it is built. */
  function PlanOf(p: Protection): Plan {
    Plan(p.family, p.table, Rules(p.tun, p.bootstrap, p.marks))
  }

  function PlanFromAuthority(p: Protection): Result<Plan> {
    if ValidProtection(p) then Ok(PlanOf(p)) else Err
  }

  // ---------------------------------------------------------------- what a composition lets through

  datatype Packet = Packet(
    outInterface: string, ipv4: bool, destination: string, mark: U32, udp: (nat, nat), icmp6: nat)

  predicate Matches(m: Match, packet: Packet) {
    match m
    case OutInterface(name) => packet.outInterface == name
    case Destination(address) => packet.ipv4 && packet.destination == address
    case MarkIs(value) => packet.mark == value
    case Dhcp4 => packet.ipv4 && packet.udp == (68, 67)
    case Dhcp6 => !packet.ipv4 && packet.udp == (546, 547)
    case LinkControl => !packet.ipv4 && (packet.icmp6 == 133 || packet.icmp6 == 135 || packet.icmp6 == 136)
    case Everything => true
  }

  /** First matching rule decides; the chain policy is accept. */
  predicate Verdict(rules: seq<Rule>, packet: Packet) {
    if rules == [] then true
    else if Matches(rules[0].match_, packet) then rules[0].accept
    else Verdict(rules[1..], packet)
  }

  predicate Accepts(plan: Plan, packet: Packet) {
    Verdict(plan.rules, packet)
  }

  /**
   Traffic that is not kept from leaving: loopback, the tunnel itself, DHCP requests, and ICMPv6
   router solicitation (133), neighbour solicitation (135) and neighbour advertisement (136).
   */
  predicate Infrastructure(tun: string, packet: Packet) {
    || packet.outInterface == "lo" || packet.outInterface == tun
    || (packet.ipv4 && packet.udp == (68, 67))
    || (!packet.ipv4 && packet.udp == (546, 547))
    || (!packet.ipv4 && packet.icmp6 in {133, 135, 136})
  }

  datatype Peer = Endpoint(address: string) | EgressMark(mark: U32)

  function Peers(p: Protection): set<Peer> {
    (set e | e in p.bootstrap :: Endpoint(e)) + (set m | m in p.marks :: EgressMark(m))
  }

  predicate Reaches(packet: Packet, peers: set<Peer>) {
    (packet.ipv4 && Endpoint(packet.destination) in peers) || EgressMark(packet.mark) in peers
  }

  lemma {:induction false} VerdictSkips(before: seq<Rule>, after: seq<Rule>, packet: Packet)
    requires forall i :: 0 <= i < |before| ==> before[i].accept
    ensures Verdict(before + after, packet)
      <==> (exists i :: 0 <= i < |before| && Matches(before[i].match_, packet)) || Verdict(after, packet)
  {
    if before == [] {
      assert before + after == after;
    } else {
      assert (before + after)[0] == before[0] && (before + after)[1..] == before[1..] + after;
      VerdictSkips(before[1..], after, packet);
      var hit := exists i :: 0 <= i < |before| && Matches(before[i].match_, packet);
      if exists i :: 0 <= i < |before[1..]| && Matches(before[1..][i].match_, packet) {
        var i :| 0 <= i < |before[1..]| && Matches(before[1..][i].match_, packet);
        assert Matches(before[i + 1].match_, packet);
      }
      if hit && !Matches(before[0].match_, packet) {
        var i :| 0 <= i < |before| && Matches(before[i].match_, packet);
        assert Matches(before[1..][i - 1].match_, packet);
      }
    }
  }

  lemma ControlVerdict(packet: Packet)
    ensures Verdict(CONTROL_RULES, packet)
      <==> Matches(Dhcp4, packet) || Matches(Dhcp6, packet) || Matches(LinkControl, packet)
  {
    var rest := CONTROL_RULES[1..][1..][1..];
    assert rest == [Rule(Everything, false)];
    assert !Verdict(rest, packet);
    assert Verdict(CONTROL_RULES[1..][1..], packet) == Matches(LinkControl, packet);
  }

  /**
   Read as a first-match list, an envelope accepts exactly infrastructure traffic and traffic to one
   of its endpoints or with one of its marks; everything else meets the final reject rule.
   */
  lemma AcceptsIff(p: Protection, packet: Packet)
    ensures Accepts(PlanOf(p), packet) <==> Infrastructure(p.tun, packet) || Reaches(packet, Peers(p))
  {
    var head := [Rule(OutInterface("lo"), true), Rule(OutInterface(p.tun), true)];
    var endpoints, marks := EndpointRules(p.bootstrap), MarkRules(p.marks);
    var before := head + endpoints + marks;
    assert PlanOf(p).rules == before + CONTROL_RULES;
    VerdictSkips(before, CONTROL_RULES, packet);
    ControlVerdict(packet);
    AnyMatch(head + endpoints, marks, packet);
    AnyMatch(head, endpoints, packet);
    HeadMatches(p.tun, packet);
    EndpointMatches(p.bootstrap, packet);
    MarkMatches(p.marks, packet);
  }

  predicate Hit(rules: seq<Rule>, packet: Packet) {
    exists i :: 0 <= i < |rules| && Matches(rules[i].match_, packet)
  }

  lemma AnyMatch(a: seq<Rule>, b: seq<Rule>, packet: Packet)
    ensures Hit(a + b, packet) <==> Hit(a, packet) || Hit(b, packet)
  {
    if Hit(a, packet) {
      var i :| 0 <= i < |a| && Matches(a[i].match_, packet);
      assert Matches((a + b)[i].match_, packet);
    }
    if Hit(b, packet) {
      var i :| 0 <= i < |b| && Matches(b[i].match_, packet);
      assert Matches((a + b)[|a| + i].match_, packet);
    }
  }

  lemma HeadMatches(tun: string, packet: Packet)
    ensures Hit([Rule(OutInterface("lo"), true), Rule(OutInterface(tun), true)], packet)
      <==> packet.outInterface == "lo" || packet.outInterface == tun
  {
    var head := [Rule(OutInterface("lo"), true), Rule(OutInterface(tun), true)];
    assert Matches(head[0].match_, packet) <==> packet.outInterface == "lo";
    assert Matches(head[1].match_, packet) <==> packet.outInterface == tun;
  }

  lemma EndpointMatches(endpoints: seq<string>, packet: Packet)
    ensures Hit(EndpointRules(endpoints), packet) <==> packet.ipv4 && packet.destination in endpoints
  {
    if packet.ipv4 && packet.destination in endpoints {
      var i :| 0 <= i < |endpoints| && endpoints[i] == packet.destination;
      assert Matches(EndpointRules(endpoints)[i].match_, packet);
    }
  }

  lemma MarkMatches(marks: seq<U32>, packet: Packet)
    ensures Hit(MarkRules(marks), packet) <==> packet.mark in marks
  {
    if packet.mark in marks {
      var i :| 0 <= i < |marks| && marks[i] == packet.mark;
      assert Matches(MarkRules(marks)[i].match_, packet);
    }
  }

  /** Where each endpoint and each mark stands in the rule list. */
  lemma RulesOf(p: Protection)
    ensures var rules := PlanOf(p).rules;
      && |rules| == 6 + |p.bootstrap| + |p.marks|
      && (forall i :: 0 <= i < |p.bootstrap| ==> rules[2 + i] == Rule(Destination(p.bootstrap[i]), true))
      && (forall i :: 0 <= i < |p.marks| ==> rules[2 + |p.bootstrap| + i] == Rule(MarkIs(p.marks[i]), true))
  {
  }

  lemma RulesTell(a: Protection, b: Protection)
    requires PlanOf(a).rules == PlanOf(b).rules
    requires (a.marks == b.marks == []) || (a.bootstrap == b.bootstrap == [])
    ensures a.bootstrap == b.bootstrap && a.marks == b.marks
  {
    RulesOf(a);
    RulesOf(b);
    var ra, rb := PlanOf(a).rules, PlanOf(b).rules;
    forall i | 0 <= i < |a.bootstrap| ensures a.bootstrap[i] == b.bootstrap[i] { assert ra[2 + i] == rb[2 + i]; }
    forall i | 0 <= i < |a.marks| ensures a.marks[i] == b.marks[i] {
      assert ra[2 + |a.bootstrap| + i] == rb[2 + |a.bootstrap| + i];
    }
  }

  /** A composition determines the lists it was built from, so exact verification identifies the authority. */
  lemma PlanInjective(a: Protection, b: Protection)
    requires SameIdentity(a, b) && ValidComposition(a) && ValidComposition(b)
    ensures PlanOf(a) == PlanOf(b) <==> a.bootstrap == b.bootstrap && a.marks == b.marks
  {
    if PlanOf(a) == PlanOf(b) { RulesTell(a, b); }
  }

  // ---------------------------------------------------------------- normalizers

  method NormalizeMarks(raw: seq<U32>) returns (r: Result<seq<U32>>)
    ensures r.Err? <==> raw == [] || 0 in raw
    ensures r.Ok? ==> StrictlySorted(MarkLess, r.value) && Elements(r.value) == Elements(raw)
  {
    if raw == [] { return Err; }
    for i := 0 to |raw|
      invariant 0 !in raw[..i]
    {
      if raw[i] == 0 { return Err; }
      assert raw[..i + 1] == raw[..i] + [raw[i]];
    }
    assert raw[..|raw|] == raw;
    assert StrictOrder(MarkLess);
    var marks := SortDistinct(MarkLess, raw);
    return Ok(marks);
  }

  /** All of a list, read one by one; nothing if one of them cannot be read. */
  function ParsedBy(parse: string -> Option<string>, raw: seq<string>): Option<seq<string>> {
    if raw == [] then Some([])
    else
      var init, last := ParsedBy(parse, raw[..|raw| - 1]), parse(raw[|raw| - 1]);
      if init.Some? && last.Some? then Some(init.value + [last.value]) else None
  }

  function Parsed(raw: seq<string>): Option<seq<string>> {
    ParsedBy(ParseIPv4, raw)
  }

  method NormalizeBootstrap(raw: seq<string>) returns (r: Result<seq<string>>)
    ensures r.Err? <==> raw == [] || Parsed(raw).None?
    ensures r.Ok? ==> StrictlySorted(TextLess, r.value) && Elements(r.value) == Elements(Parsed(raw).value)
  {
    if raw == [] { return Err; }
    var parsed := ParseAll(ParseIPv4, raw);
    if parsed.None? { return Err; }
    TextOrder();
    var endpoints := SortDistinct(TextLess, parsed.value);
    return Ok(endpoints);
  }

  method ParseAll(parse: string -> Option<string>, raw: seq<string>) returns (r: Option<seq<string>>)
    ensures r == ParsedBy(parse, raw)
  {
    var parsed: seq<string> := [];
    for i := 0 to |raw|
      invariant ParsedBy(parse, raw[..i]) == Some(parsed)
    {
      assert raw[..i + 1][..i] == raw[..i];
      var one := parse(raw[i]);
      if one.None? {
        ParsedPrefix(parse, raw, i + 1);
        return None;
      }
      parsed := parsed + [one.value];
    }
    assert raw[..|raw|] == raw;
    return Some(parsed);
  }

  lemma {:induction false} ParsedPrefix(parse: string -> Option<string>, raw: seq<string>, n: nat)
    requires n <= |raw| && ParsedBy(parse, raw[..n]).None?
    ensures ParsedBy(parse, raw).None?
  {
    if n == |raw| {
      assert raw[..n] == raw;
    } else {
      assert raw[..|raw| - 1][..n] == raw[..n];
      ParsedPrefix(parse, raw[..|raw| - 1], n);
    }
  }

  /** Parsing a list gives exactly the parses of its elements, and succeeds if all of them do. */
  lemma {:induction false} ParsedMembers(parse: string -> Option<string>, raw: seq<string>, e: string)
    ensures (forall i :: 0 <= i < |raw| ==> parse(raw[i]).Some?) ==> ParsedBy(parse, raw).Some?
    ensures ParsedBy(parse, raw).Some? ==>
      (e in ParsedBy(parse, raw).value <==> exists i :: 0 <= i < |raw| && parse(raw[i]) == Some(e))
  {
    if raw != [] {
      var init, last := raw[..|raw| - 1], raw[|raw| - 1];
      ParsedMembers(parse, init, e);
      assert forall i :: 0 <= i < |init| ==> init[i] == raw[i];
      if ParsedBy(parse, raw).Some? && e in ParsedBy(parse, init).value {
        var i :| 0 <= i < |init| && parse(init[i]) == Some(e);
        assert parse(raw[i]) == Some(e);
      }
    }
  }
}
