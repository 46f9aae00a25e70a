/**
 How plans become authorities: bounded table allocation, target and union compositions, and the
 de-duplicated list of compositions recovery has to tell apart. The last section gives the
 concrete records on which the lifecycle's guards are needed.
 */
module EnvelopeTargets {
  import opened Wrappers
  import opened SortedLists
  import opened Intents
  import opened Addresses
  import opened Envelope
  import opened EnvelopeWorld
  import Counting

  function CandidateTable(id: string, k: nat): string
    requires ValidId(id) && k < CANDIDATE_LIMIT
  {
    "podlaz_pe_" + id[..12]
    + if k == 0 then ""
      else if k < 10 then ['_', ('0' as int + k) as char]
      else ['_', '1', ('0' as int + k - 10) as char]
  }

  predicate AllTaken(w: World, id: string, n: nat)
    requires ValidId(id) && n <= CANDIDATE_LIMIT
  {
    forall j :: 0 <= j < n ==> CandidateTable(id, j) in w.tables
  }

  lemma CandidateValid(id: string, k: nat)
    requires ValidId(id) && k < CANDIDATE_LIMIT
    ensures ValidTable(CandidateTable(id, k))
  {
    var t := CandidateTable(id, k);
    assert t[..10] == "podlaz_pe_" && t[10..22] == id[..12];
    assert k >= 10 ==> t[24..] == [t[24]];
  }

  function PeersOf(endpoints: seq<string>, marks: seq<U32>): set<Peer> {
    (set e | e in endpoints :: Endpoint(e)) + (set m | m in marks :: EgressMark(m))
  }

  /** The record authorizes exactly these peers behind that tunnel. */
  ghost predicate Authorized(w: World, tun: string, peers: set<Peer>) {
    && Present(w) && w.record.value.protection.Some?
    && w.record.value.protection.value.tun == tun && Peers(w.record.value.protection.value) == peers
  }

  /** The plan is for this tunnel and this kind of composition. */
  predicate Fits(p: Protection, plan: TunPlan) {
    && p.tun == plan.tun
    && if plan.mark != 0 then p.version == MARKED_VERSION
       else p.version == ENDPOINT_VERSION && ParseIPv4(plan.server).Some?
  }

  /** Lists an authority of this kind may carry. */
  predicate Composable(version: nat, bootstrap: seq<string>, marks: seq<U32>) {
    || (version == ENDPOINT_VERSION && ValidBootstrap(bootstrap) && marks == [])
    || (version == MARKED_VERSION && ValidMarks(marks) && bootstrap == [])
  }

  /** The plan says whom to let through: by mark, or by an address that can be read. */
  predicate Targeted(plan: TunPlan) {
    plan.mark != 0 || ParseIPv4(plan.server).Some?
  }

  /** The authority already is what the plan asks for. */
  predicate AlreadyFor(p: Protection, plan: TunPlan) {
    && p.tun == plan.tun && Targeted(plan)
    && if plan.mark != 0 then p.version == MARKED_VERSION && p.marks == [plan.mark]
       else p.version == ENDPOINT_VERSION && p.bootstrap == [ParseIPv4(plan.server).value]
  }

  lemma OneMark(marks: seq<U32>, mark: U32)
    requires StrictlySorted(MarkLess, marks) && Elements(marks) == {mark}
    ensures marks == [mark]
  {
    assert StrictOrder(MarkLess);
    assert Elements([mark]) == {mark};
    SortedUnique(MarkLess, marks, [mark]);
  }

  lemma OneEndpoint(endpoints: seq<string>, plan: TunPlan)
    requires Parsed([plan.server]).Some? && StrictlySorted(TextLess, endpoints)
    requires Elements(endpoints) == Elements(Parsed([plan.server]).value)
    ensures ParseIPv4(plan.server).Some? && endpoints == [ParseIPv4(plan.server).value]
    ensures ValidBootstrap(endpoints)
  {
    TextOrder();
    assert Parsed([plan.server][..0]) == Some([]);
    var e := ParseIPv4(plan.server).value;
    assert Parsed([plan.server]).value == [e];
    SortedUnique(TextLess, endpoints, [e]);
    ParseCanonical(plan.server);
  }

  lemma CandidateEnds(id: string, k: nat)
    requires ValidId(id) && k < CANDIDATE_LIMIT
    ensures var t := CandidateTable(id, k);
      && |t| == (if k == 0 then 22 else if k < 10 then 24 else 25)
      && (0 < k < 10 ==> t[23] == ('0' as int + k) as char)
      && (k >= 10 ==> t[24] == ('0' as int + k - 10) as char)
  {
  }

  /** The sixteen candidate names are sixteen different names. */
  lemma CandidatesDiffer(id: string, j: nat, k: nat)
    requires ValidId(id) && j < CANDIDATE_LIMIT && k < CANDIDATE_LIMIT && j != k
    ensures CandidateTable(id, j) != CandidateTable(id, k)
  {
    CandidateEnds(id, j);
    CandidateEnds(id, k);
  }

  lemma MarkTarget(p: Protection, marks: seq<U32>, plan: TunPlan)
    requires p.version == MARKED_VERSION && ValidProtection(p) && plan.mark != 0
    requires Elements(marks) == {plan.mark} && StrictlySorted(MarkLess, marks)
    ensures ValidProtection(Remarked(p, marks)) && Retargets(p, Remarked(p, marks))
    ensures Peers(Remarked(p, marks)) == Target(plan)
    ensures p.marks == marks ==> Peers(p) == Target(plan)
  {
    assert forall m :: m in marks <==> m in Elements(marks);
    assert plan.mark in marks;
  }

  lemma ServerPeers(endpoints: seq<string>, plan: TunPlan)
    requires plan.mark == 0 && Parsed([plan.server]).Some?
    requires Elements(endpoints) == Elements(Parsed([plan.server]).value)
    ensures PeersOf(endpoints, []) == Target(plan) && endpoints != []
  {
    assert Parsed([plan.server][..0]) == Some([]);
    assert Parsed([plan.server]).value == [ParseIPv4(plan.server).value];
    assert forall e :: e in endpoints <==> e in Elements(endpoints);
    assert ParseIPv4(plan.server).value in endpoints;
  }

  lemma ServerParses(plan: TunPlan)
    requires ParseIPv4(plan.server).Some?
    ensures Parsed([plan.server]).Some?
  {
    assert Parsed([plan.server][..0]) == Some([]);
  }

  lemma EndpointTarget(p: Protection, endpoints: seq<string>, plan: TunPlan)
    requires ValidProtection(p) && PeersOf(endpoints, []) == Target(plan) && endpoints != []
    ensures ValidProtection(Rebootstrapped(p, endpoints)) ==>
      Peers(Rebootstrapped(p, endpoints)) == Target(plan) && Retargets(p, Rebootstrapped(p, endpoints))
    ensures p.bootstrap == endpoints ==> Peers(p) == Target(plan)
  {
  }

  /** A sorted list of canonical endpoints is an acceptable composition. */
  lemma EndpointsValid(p: Protection, endpoints: seq<string>)
    requires ValidProtection(p) && p.version == ENDPOINT_VERSION && endpoints != []
    requires StrictlySorted(TextLess, endpoints)
    requires forall e :: e in endpoints ==> ParseIPv4(e) == Some(e)
    ensures ValidProtection(Rebootstrapped(p, endpoints))
  {
    TextOrder();
  }

  lemma TargetCanonical(endpoints: seq<string>, plan: TunPlan, e: string)
    requires plan.mark == 0 && PeersOf(endpoints, []) == Target(plan) && e in endpoints
    ensures ParseIPv4(e) == Some(e)
  {
    assert Endpoint(e) in PeersOf(endpoints, []);
    ParseCanonical(plan.server);
  }

  lemma MarkUnion(p: Protection, union: seq<U32>, plan: TunPlan)
    requires p.version == MARKED_VERSION && ValidProtection(p) && plan.mark != 0
    requires Elements(union) == Elements(p.marks + [plan.mark]) && StrictlySorted(MarkLess, union)
    ensures ValidProtection(Remarked(p, union)) && Retargets(p, Remarked(p, union))
    ensures Peers(Remarked(p, union)) == Peers(p) + Target(plan)
    ensures union == p.marks ==> Peers(p) == Peers(p) + Target(plan)
  {
    assert forall m :: m in union <==> m in Elements(p.marks + [plan.mark]);
    assert forall m :: m in p.marks ==> EgressMark(m) in Peers(p);
    assert plan.mark in p.marks + [plan.mark];
    assert plan.mark in union && forall m :: m in union ==> m in p.marks || m == plan.mark;
  }

  lemma EndpointUnion(p: Protection, union: seq<string>, target: seq<string>, plan: TunPlan)
    requires ValidProtection(p) && plan.mark == 0 && PeersOf(target, []) == Target(plan) && target != []
    requires Parsed(p.bootstrap + target).Some? && Elements(union) == Elements(Parsed(p.bootstrap + target).value)
    requires StrictlySorted(TextLess, union)
    ensures p.version == ENDPOINT_VERSION ==> ValidProtection(Rebootstrapped(p, union))
    ensures p.version == ENDPOINT_VERSION ==>
      Retargets(p, Rebootstrapped(p, union)) && Peers(Rebootstrapped(p, union)) == Peers(p) + Target(plan)
    ensures p.version != ENDPOINT_VERSION ==> !ValidProtection(Rebootstrapped(p, union)) && union != p.bootstrap
    ensures union == p.bootstrap ==> Peers(p) == Peers(p) + Target(plan)
  {
    var raw := p.bootstrap + target;
    forall e ensures e in union <==> e in raw {
      assert e in union <==> e in Elements(union);
      ParsedMembers(ParseIPv4, raw, e);
      UnionMembers(p.bootstrap, target, plan, e);
    }
    assert target[0] in raw;
    EndpointUnionPeers(p, union, target, plan);
    if p.version == ENDPOINT_VERSION {
      forall e | e in union ensures ParseIPv4(e) == Some(e) {
        if e !in p.bootstrap { TargetCanonical(target, plan, e); }
      }
      EndpointsValid(p, union);
    }
  }

  lemma EndpointUnionPeers(p: Protection, union: seq<string>, target: seq<string>, plan: TunPlan)
    requires plan.mark == 0 && PeersOf(target, []) == Target(plan)
    requires forall e :: e in union <==> e in p.bootstrap + target
    ensures Peers(Rebootstrapped(p, union)) == Peers(p) + Target(plan)
    ensures union == p.bootstrap ==> Peers(p) == Peers(p) + Target(plan)
  {
    forall e | e in target ensures Endpoint(e) in Target(plan) { assert Endpoint(e) in PeersOf(target, []); }
    forall x | x in Target(plan) ensures x in Peers(Rebootstrapped(p, union)) { assert x in PeersOf(target, []); }
  }

  lemma UnionParses(p: Protection, target: seq<string>, plan: TunPlan)
    requires ValidProtection(p) && p.version == ENDPOINT_VERSION && plan.mark == 0
    requires PeersOf(target, []) == Target(plan)
    ensures Parsed(p.bootstrap + target).Some?
  {
    forall e | e in target ensures ParseIPv4(e).Some? { TargetCanonical(target, plan, e); }
    BothParse(p.bootstrap, target);
  }

  lemma BothParse(a: seq<string>, b: seq<string>)
    requires forall e :: e in a || e in b ==> ParseIPv4(e).Some?
    ensures Parsed(a + b).Some?
  {
    forall i | 0 <= i < |a + b| ensures ParseIPv4((a + b)[i]).Some? { assert (a + b)[i] in a || (a + b)[i] in b; }
    ParsedMembers(ParseIPv4, a + b, "");
  }

  /** `next` is `p` on its way to a composition of exactly these peers. */
  ghost predicate MovesTo(p: Protection, next: Protection, peers: set<Peer>) {
    ValidProtection(next) && Retargets(p, next) && Peers(next) == peers
  }

  /** The composition a plan asks for, and whether the authority already is that composition. */
  method TargetOf(p: Protection, plan: TunPlan) returns (r: Option<Protection>, same: bool)
    requires ValidProtection(p)
    ensures r.Some? ==> if same then Peers(p) == Target(plan) else MovesTo(p, r.value, Target(plan))
    ensures Fits(p, plan) ==> r.Some?
    ensures AlreadyFor(p, plan) ==> r.Some? && same
  {
    if plan.mark != 0 {
      if p.version != MARKED_VERSION { return None, false; }
      var marks := NormalizeMarks([plan.mark]);
      if marks.Err? { return None, false; }
      assert Elements([plan.mark]) == {plan.mark};
      OneMark(marks.value, plan.mark);
      MarkTarget(p, marks.value, plan);
      return Some(Remarked(p, marks.value)), p.marks == marks.value;
    }
    if ParseIPv4(plan.server).Some? { ServerParses(plan); }
    var bootstrap := NormalizeBootstrap([plan.server]);
    if bootstrap.Err? || p.version != ENDPOINT_VERSION { return None, false; }
    OneEndpoint(bootstrap.value, plan);
    ServerPeers(bootstrap.value, plan);
    EndpointTarget(p, bootstrap.value, plan);
    forall e | e in bootstrap.value ensures ParseIPv4(e) == Some(e) { TargetCanonical(bootstrap.value, plan, e); }
    EndpointsValid(p, bootstrap.value);
    return Some(Rebootstrapped(p, bootstrap.value)), p.bootstrap == bootstrap.value;
  }

  /** The union of what an authority admits and what a plan asks for, and whether that is no change. */
  method UnionOf(p: Protection, plan: TunPlan) returns (r: Option<Protection>, same: bool)
    requires ValidProtection(p)
    ensures r.Some? ==>
      if same then Peers(p) == Peers(p) + Target(plan) else MovesTo(p, r.value, Peers(p) + Target(plan))
    ensures r.Some? && p.tun == plan.tun <==> Fits(p, plan)
  {
    if plan.mark != 0 {
      if p.version != MARKED_VERSION { return None, false; }
      var union := NormalizeMarks(p.marks + [plan.mark]);
      if union.Err? { return None, false; }
      MarkUnion(p, union.value, plan);
      return Some(Remarked(p, union.value)), p.marks == union.value;
    }
    if ParseIPv4(plan.server).Some? { ServerParses(plan); }
    var target := NormalizeBootstrap([plan.server]);
    if target.Err? || p.version != ENDPOINT_VERSION { return None, false; }
    ServerPeers(target.value, plan);
    UnionParses(p, target.value, plan);
    var union := NormalizeBootstrap(p.bootstrap + target.value);
    if union.Err? { return None, false; }
    EndpointUnion(p, union.value, target.value, plan);
    return Some(Rebootstrapped(p, union.value)), p.bootstrap == union.value;
  }

  /** Normalized lists parse to themselves, so their concatenation parses to their union. */
  lemma UnionMembers(a: seq<string>, b: seq<string>, plan: TunPlan, e: string)
    requires (a == [] || ValidBootstrap(a)) && plan.mark == 0 && PeersOf(b, []) == Target(plan)
    ensures e in a + b <==> exists i :: 0 <= i < |a + b| && ParseIPv4((a + b)[i]) == Some(e)
  {
    forall i | 0 <= i < |a + b| ensures ParseIPv4((a + b)[i]) == Some((a + b)[i]) {
      if i >= |a| {
        assert Endpoint(b[i - |a|]) in PeersOf(b, []);
        ParseCanonical(plan.server);
      }
    }
    if e in a + b {
      var i :| 0 <= i < |a + b| && (a + b)[i] == e;
      assert ParseIPv4((a + b)[i]) == Some(e);
    }
  }

  datatype Matched = NoMatch | One(plan: Plan) | Many

  /** The compositions of some authorities, each once. */
  method DistinctPlans(authorities: seq<Protection>) returns (r: Result<seq<Plan>>)
    ensures r.Err? <==> exists i :: 0 <= i < |authorities| && !ValidProtection(authorities[i])
    ensures r.Ok? ==> Counting.NoDuplicates(r.value) && Elements(r.value) == PlansOf(authorities)
  {
    var plans: seq<Plan> := [];
    for i := 0 to |authorities|
      invariant Counting.NoDuplicates(plans) && Elements(plans) == PlansOf(authorities[..i])
      invariant forall j :: 0 <= j < i ==> ValidProtection(authorities[j])
    {
      var plan := PlanFromAuthority(authorities[i]);
      if plan.Err? { return Err; }
      PlansOfPrefix(authorities, i);
      if plan.value !in plans {
        assert Elements(plans + [plan.value]) == Elements(plans) + {plan.value};
        plans := plans + [plan.value];
      } else {
        assert plan.value in Elements(plans);
      }
    }
    assert authorities[..|authorities|] == authorities;
    return Ok(plans);
  }

  lemma PlansOfPrefix(authorities: seq<Protection>, i: nat)
    requires i < |authorities|
    ensures PlansOf(authorities[..i + 1]) == PlansOf(authorities[..i]) + {PlanOf(authorities[i])}
  {
    assert authorities[..i + 1] == authorities[..i] + [authorities[i]];
  }

  /** replacementRecoveryPlans: fails only without durable rollback authority or on an invalid one. */
  method ReplacementRecoveryPlans(s: Session) returns (r: Result<seq<Plan>>)
    ensures r.Err? <==> !Replacing(s) || exists i :: 0 <= i < |Authorities(s)| && !ValidProtection(Authorities(s)[i])
    ensures r.Ok? ==> Counting.NoDuplicates(r.value) && Elements(r.value) == PlansOf(Authorities(s))
  {
    if !Replacing(s) { return Err; }
    r := DistinctPlans(Authorities(s));
  }

  /** Every authority a tidy accepted record yields is itself accepted and names the same table. */
  lemma AuthoritiesValid(s: Session, a: Protection)
    requires ValidSession(s) && Replacing(s) && a in Authorities(s)
    ensures ValidProtection(a) && a.table == s.protection.value.table && PlanOf(a).table == a.table
  {
    var p := s.protection.value;
    assert a == Previous(s) || a == p || a in Transitions(p);
  }

  // ---------------------------------------------------------------- why the guards are there

  const SAMPLE_ID := "00000000000000000000000000000000"
  const SAMPLE_REQUEST := Request("tun", "p", ReplacePodlaz)

  function SampleProtection(state: ProtectionState, marks: seq<U32>, previous: seq<U32>): Protection {
    Protection(state, MARKED_VERSION, "inet", CandidateTable(SAMPLE_ID, 0), "tun0", [], [], marks, previous)
  }

  function SampleSession(current: Protection, previous: Protection): Session {
    Session("b", SAMPLE_ID, 0, Resume, SAMPLE_REQUEST, Some(current), Some(Replacement(SAMPLE_REQUEST, Some(previous))))
  }

  lemma SampleValid(state: ProtectionState, marks: seq<U32>, previous: seq<U32>, old_: seq<U32>)
    requires ValidMarks(marks) && (previous == [] || (state.Arming? && ValidMarks(previous))) && ValidMarks(old_)
    ensures ValidSession(SampleSession(SampleProtection(state, marks, previous), SampleProtection(Armed, old_, [])))
  {
    CandidateValid(SAMPLE_ID, 0);
    assert ValidInterface("tun0");
  }

  /** A live table under a record. */
  function SampleWorld(s: Session, live: Plan): World {
    World(Some(s), map[live.table := Live(live, true)], false, false, "b", 0, [],
          {EgressMark(1), EgressMark(2), EgressMark(3)})
  }

  /**
   Arming again from an unfinished transition: the union is still live because the first narrowing
   swap failed, and the second retarget forgets it. This is what the armed guard rules out.
   */
  lemma RetargetTwiceLosesLive() returns (s: Session, next: Protection)
    ensures ValidSession(s) && Replacing(s) && ValidProtection(next) && Retargets(s.protection.value, next)
    ensures !(Candidates(s) <= Candidates(s.(protection := Some(next))))
  {
    var old_, moved := SampleProtection(Armed, [1], []), SampleProtection(Arming, [2], [1, 2]);
    s, next := SampleSession(moved, old_), Remarked(moved, [3]);
    SampleValid(Arming, [2], [1, 2], [1]);
    SampleValid(Arming, [3], [2], [1]);
    var union := SampleProtection(Armed, [1, 2], []);
    assert Transitions(moved) == [union];
    assert union in Authorities(s);
    PlanInjective(union, old_);
    PlanInjective(union, moved);
    PlanInjective(union, next);
    RetargetKeepsAuthority(s, next);
    assert PlanOf(union) in PlansOf(Transitions(moved));
  }

  /** Once the way back is gone with another composition live, recording it anew does not help. */
  lemma RebegunLosesLive(w: World, request: Request)
    requires Inv(w) && MidReplacement(w) && Table(w) in w.tables
    requires w.tables[Table(w)].plan != PlanOf(Previous(w.record.value))
    ensures !Inv(w.(record := Some(Begun(Restored(w.record.value), request))))
  {
    var again := Begun(Restored(w.record.value), request);
    var p := Previous(w.record.value);
    PlansOfAuthorities(again);
    TransitionsTidy(p);
    assert Names(w.(record := Some(again)), Table(w));
  }

  lemma SampleInv(current: Protection, previous: Protection)
    requires ValidSession(SampleSession(current, previous)) && NoPrevious(previous) && previous.state.Armed?
    requires current.state.Armed?
    requires Mentioned(SampleSession(current, previous)) <= {EgressMark(1), EgressMark(2), EgressMark(3)}
    ensures var w := SampleWorld(SampleSession(current, previous), PlanOf(current));
      Inv(w) && MidReplacement(w) && LiveIs(w, Table(w), PlanOf(current))
  {
    var s := SampleSession(current, previous);
    PlansOfAuthorities(s);
    assert Names(SampleWorld(s, PlanOf(current)), current.table);
  }

  /**
   Connect's other way back, taken when the previous outcome cannot be superseded, has no gate. On
   a retry of an unresolved replacement it drops the way back while the union is live, and saving
   the previous request again does not bring it back.
   */
  lemma UngatedRestoreLosesLive() returns (w: World)
    ensures Inv(w) && MidReplacement(w) && !Unmoved(w.record.value)
    ensures !Inv(w.(record := Some(Restored(w.record.value))))
    ensures !Inv(w.(record := Some(Begun(Restored(w.record.value), w.record.value.request))))
  {
    var old_, union := SampleProtection(Armed, [1], []), SampleProtection(Armed, [1, 2], []);
    SampleValid(Armed, [1, 2], [], [1]);
    SampleInv(union, old_);
    PlanInjective(union, old_);
    w := SampleWorld(SampleSession(union, old_), PlanOf(union));
    RestoreKeepsIff(w);
    RebegunLosesLive(w, SAMPLE_REQUEST);
  }
}
