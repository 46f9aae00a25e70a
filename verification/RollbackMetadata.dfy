/**
 Incremental ownership: every applied step is persisted at once, and the rollback metadata grown
 that way is the metadata of the whole de-duplicated step list and passes its own validation.
 */
module RollbackMetadata {
  import opened Counting
  import Text
  import PersistedText

  const OWNER := "podlaz"
  const ROUTE_OWNER := "podlaz:route"
  const RULE_OWNER := "podlaz:policy-rule"

  datatype Kind = DeviceStep | AddressStep | RouteStep | RuleStep | DnsStep | FirewallStep | OtherStep

  datatype Step = Step(kind: Kind, target: string, description: string, owner: string)

  datatype Route = Route(table: string, destination: string, gateway: string, interface_: string, added: bool)

  datatype Rule = Rule(rule: PersistedText.PolicyRule, added: bool)

  /** A resource of which a plan has one: its name, its step target, its owner, and whether rollback owns it. */
  datatype Single = Single(name: string, target: string, owner: string, owned: bool)

  datatype Plan = Plan(
    device: Single, address: Single, routes: seq<Route>, rules: seq<Rule>, dns: Single, firewall: Single)

  const NOTHING := Single("", "", "", false)
  const BLANK := Plan(NOTHING, NOTHING, [], [], NOTHING, NOTHING)

  datatype RouteRollback = RouteRollback(table: string, cidr: string, via: string, dev: string, owner: string)

  datatype RuleRollback = RuleRollback(rule: PersistedText.RuleRollback, owner: string)

  datatype Metadata = Metadata(
    devices: seq<string>, addresses: seq<string>, routes: seq<RouteRollback>, rules: seq<RuleRollback>,
    dns: seq<string>, tables: seq<string>, configs: seq<string>, children: seq<nat>)

  const EMPTY := Metadata([], [], [], [], [], [], [], [])

  /** mergeRollbackMetadata. */
  function Merge(a: Metadata, b: Metadata): Metadata {
    Metadata(a.devices + b.devices, a.addresses + b.addresses, a.routes + b.routes, a.rules + b.rules,
             a.dns + b.dns, a.tables + b.tables, a.configs + b.configs, a.children + b.children)
  }

  function RouteTarget(r: Route): string {
    r.table + " " + r.destination
  }

  function RuleTarget(r: Rule): string {
    PersistedText.PolicyTarget(r.rule)
  }

  // ---------------------------------------------------------------- applied steps to a rollback plan

  predicate Claims(step: Step, s: Single) {
    step.owner == s.owner && step.target == s.target
  }

  /** One iteration of rollbackPlanFromAppliedSteps. */
  function Extend(rollback: Plan, plan: Plan, step: Step): Plan {
    match step.kind
    case DeviceStep => if Claims(step, plan.device) then rollback.(device := plan.device) else rollback
    case AddressStep => if Claims(step, plan.address) then rollback.(address := plan.address) else rollback
    case RouteStep =>
      if step.owner != ROUTE_OWNER then rollback
      else rollback.(routes := rollback.routes + Filter(plan.routes, On(RouteTarget, step.target)))
    case RuleStep =>
      if step.owner != RULE_OWNER then rollback
      else rollback.(rules := rollback.rules + Filter(plan.rules, On(RuleTarget, step.target)))
    case DnsStep => if Claims(step, plan.dns) then rollback.(dns := plan.dns) else rollback
    case FirewallStep => if Claims(step, plan.firewall) then rollback.(firewall := plan.firewall) else rollback
    case OtherStep => rollback
  }

  function RollbackPlan(plan: Plan, steps: seq<Step>): Plan {
    if steps == [] then BLANK
    else Extend(RollbackPlan(plan, steps[..|steps| - 1]), plan, steps[|steps| - 1])
  }

  /** rollbackPlanHasOwnedResource on the plan of a single step. */
  predicate Owned(plan: Plan, step: Step) {
    var p := RollbackPlan(plan, [step]);
    || p.device.name != "" || p.address.name != "" || p.routes != []
    || p.rules != [] || p.dns.name != "" || p.firewall.name != ""
  }

  predicate OwnedAt(plan: Plan, steps: seq<Step>, i: nat)
    requires i < |steps|
  {
    Owned(plan, steps[i])
  }

  ghost predicate OwnedUpTo(plan: Plan, steps: seq<Step>, n: nat)
    requires n <= |steps|
  {
    forall i: nat :: i < n ==> OwnedAt(plan, steps, i)
  }

  // ---------------------------------------------------------------- rollback plan to metadata

  function RouteEntry(r: Route): RouteRollback {
    RouteRollback(r.table, r.destination, r.gateway, r.interface_, ROUTE_OWNER)
  }

  function RuleEntry(r: Rule): RuleRollback {
    RuleRollback(PersistedText.RollbackOf(r.rule), RULE_OWNER)
  }

  predicate RouteAdded(r: Route) {
    r.added
  }

  predicate RuleAdded(r: Rule) {
    r.added
  }

  function RouteMetadata(routes: seq<Route>): seq<RouteRollback> {
    Mapped(Filter(routes, RouteAdded), RouteEntry)
  }

  function RuleMetadata(rules: seq<Rule>): seq<RuleRollback> {
    Mapped(Filter(rules, RuleAdded), RuleEntry)
  }

  function SingleMetadata(s: Single): seq<string> {
    if s.owned && s.name != "" then [s.name] else []
  }

  /** rollbackMetadataFromTunPlan. */
  function MetadataOf(p: Plan): Metadata {
    Metadata(SingleMetadata(p.device), SingleMetadata(p.address), RouteMetadata(p.routes), RuleMetadata(p.rules),
             SingleMetadata(p.dns), SingleMetadata(p.firewall), [], [])
  }

  // ---------------------------------------------------------------- the transaction being recorded

  predicate SameKey(a: Step, b: Step) {
    a.kind == b.kind && a.target == b.target && a.owner == b.owner
  }

  /** hasAppliedTunStep. */
  predicate HasStep(steps: seq<Step>, step: Step) {
    exists i :: 0 <= i < |steps| && SameKey(steps[i], step)
  }

  /** What a transaction knows it has applied and how to undo it. */
  datatype Record = Record(applied: seq<Step>, rollback: Metadata)

  /** How a save ends; an error may hide that it took effect. */
  datatype Save = Saved | Refused | Unreported

  /** The record with one more step. */
  function Grown(r: Record, plan: Plan, step: Step): Record {
    Record(r.applied + [step], Merge(r.rollback, MetadataOf(RollbackPlan(plan, [step]))))
  }

  /** Beyond what the transaction started with, rollback is exactly the batch metadata of the recorded steps. */
  ghost predicate Exact(r: Record, plan: Plan, base: Metadata) {
    KeysDiffer(r.applied) && r.rollback == Merge(base, MetadataOf(RollbackPlan(plan, r.applied)))
  }

  class Transaction {
    var tx: Record
    var stored: Record   // what a crash leaves behind

    constructor (configs: seq<string>, children: seq<nat>)
      ensures tx == stored == Record([], EMPTY.(configs := configs, children := children))
    {
      tx := Record([], EMPTY.(configs := configs, children := children));
      stored := Record([], EMPTY.(configs := configs, children := children));
    }

    /** persistAppliedTunStep. */
    method PersistAppliedStep(plan: Plan, step: Step, save: Save) returns (ok: bool)
      modifies this
      ensures !Owned(plan, step) || HasStep(old(tx.applied), step) ==>
        ok == Owned(plan, step) && tx == old(tx) && stored == old(stored)
      ensures Owned(plan, step) && !HasStep(old(tx.applied), step) ==>
        ok == save.Saved? && tx == Grown(old(tx), plan, step) && stored == if save.Refused? then old(stored) else tx
    {
      if !Owned(plan, step) { return false; }
      if HasStep(tx.applied, step) { return true; }
      tx := Grown(tx, plan, step);
      if !save.Refused? { stored := tx; }
      ok := save.Saved?;
    }

    /** Whatever becomes of the step and its save, both records stay exact. */
    method PersistExactly(plan: Plan, steps: seq<Step>, k: nat, save: Save, ghost base: Metadata)
      returns (ok: bool, owned: bool)
      requires k < |steps| && Exact(tx, plan, base) && stored == tx
      modifies this
      ensures owned == OwnedAt(plan, steps, k) && (OwnedUpTo(plan, steps, k) && owned ==> OwnedUpTo(plan, steps, k + 1))
      ensures Exact(tx, plan, base) && (stored == tx || (!ok && owned && stored == old(stored)))
      ensures (ok ==> stored == tx && owned)
      ensures tx.applied == if owned then Recorded(old(tx.applied), steps[k]) else old(tx.applied)
      ensures owned && !ok ==> !save.Saved?
    {
      owned := OwnedAt(plan, steps, k);
      if !HasStep(tx.applied, steps[k]) { StaysExact(tx, plan, base, steps[k]); }
      ok := PersistAppliedStep(plan, steps[k], save);
    }

    /**
     Step after step, in the order the executor reports them, until one is not ours or cannot be
     saved. Wherever that happens, and whatever the save did, both the record in memory and the
     stored one carry exactly the metadata of their own steps.
     */
    method PersistAll(plan: Plan, steps: seq<Step>, saves: seq<Save>, ghost base: Metadata)
      returns (ok: bool, taken: nat)
      requires Exact(tx, plan, base) && stored == tx && |saves| == |steps|
      modifies this
      ensures taken <= |steps| && Exact(tx, plan, base) && Exact(stored, plan, base)
      ensures tx.applied == Collected(old(tx.applied), steps[..taken])
      ensures stored == tx || (!ok && taken > 0 && stored.applied == Collected(old(tx.applied), steps[..taken - 1]))
      ensures ok ==> taken == |steps| && stored == tx && OwnedUpTo(plan, steps, |steps|)
      ensures !ok ==> StoppedAt(plan, steps, saves, taken)
    {
      taken, ok := 0, true;
      while ok && taken < |steps|
        invariant taken <= |steps| && Exact(tx, plan, base) && Exact(stored, plan, base)
        invariant tx.applied == Collected(old(tx.applied), steps[..taken])
        invariant ok ==> stored == tx && OwnedUpTo(plan, steps, taken)
        invariant stored == tx || (taken > 0 && stored.applied == Collected(old(tx.applied), steps[..taken - 1]))
        invariant !ok ==> StoppedAt(plan, steps, saves, taken)
        decreases |steps| - taken, ok
      {
        CollectedMore(old(tx.applied), steps, taken);
        var owned;
        ok, owned := PersistExactly(plan, steps, taken, saves[taken], base);
        if owned { taken := taken + 1; }
      }
      assert steps[..|steps|] == steps;
    }
  }

  /** The next step is not ours, or the last one could not be saved. */
  ghost predicate StoppedAt(plan: Plan, steps: seq<Step>, saves: seq<Save>, taken: nat)
    requires taken <= |steps| == |saves|
  {
    (taken < |steps| && !OwnedAt(plan, steps, taken)) || (taken > 0 && !saves[taken - 1].Saved?)
  }

  lemma CollectedMore(applied: seq<Step>, steps: seq<Step>, k: nat)
    requires k < |steps|
    ensures Collected(applied, steps[..k + 1]) == Recorded(Collected(applied, steps[..k]), steps[k])
  {
    assert steps[..k + 1][..k] == steps[..k];
  }

  lemma StaysExact(r: Record, plan: Plan, base: Metadata, step: Step)
    requires Exact(r, plan, base) && !HasStep(r.applied, step)
    ensures Exact(Grown(r, plan, step), plan, base)
  {
    GrowsByOne(plan, r.applied, step);
    MergeAssociates(base, MetadataOf(RollbackPlan(plan, r.applied)), MetadataOf(RollbackPlan(plan, [step])));
  }

  function Recorded(applied: seq<Step>, step: Step): seq<Step> {
    if HasStep(applied, step) then applied else applied + [step]
  }

  function Collected(applied: seq<Step>, steps: seq<Step>): seq<Step> {
    if steps == [] then applied else Recorded(Collected(applied, steps[..|steps| - 1]), steps[|steps| - 1])
  }

  /** First occurrences, by kind, target and owner. */
  function Distinct(steps: seq<Step>): seq<Step> {
    Collected([], steps)
  }

  ghost predicate KeysDiffer(steps: seq<Step>) {
    forall i, j :: 0 <= i < j < |steps| ==> !SameKey(steps[i], steps[j])
  }

  lemma {:induction false} DistinctKeys(steps: seq<Step>)
    ensures KeysDiffer(Distinct(steps))
  {
    if steps != [] { DistinctKeys(steps[..|steps| - 1]); }
  }

  lemma MergeAssociates(a: Metadata, b: Metadata, c: Metadata)
    ensures Merge(Merge(a, b), c) == Merge(a, Merge(b, c))
  {
  }

  lemma MetadataAppends(a: Plan, routes: seq<Route>, rules: seq<Rule>)
    ensures RouteMetadata(a.routes + routes) == RouteMetadata(a.routes) + RouteMetadata(routes)
    ensures RuleMetadata(a.rules + rules) == RuleMetadata(a.rules) + RuleMetadata(rules)
  {
    FilterAppend(a.routes, routes, RouteAdded);
    FilterAppend(a.rules, rules, RuleAdded);
    MappedAppend(Filter(a.routes, RouteAdded), Filter(routes, RouteAdded), RouteEntry);
    MappedAppend(Filter(a.rules, RuleAdded), Filter(rules, RuleAdded), RuleEntry);
  }

  /** The one resource of its kind a plan has. */
  function Part(p: Plan, k: Kind): Single {
    match k
    case DeviceStep => p.device
    case AddressStep => p.address
    case DnsStep => p.dns
    case FirewallStep => p.firewall
    case _ => NOTHING
  }

  /** Some step of this kind, owner and target was applied. */
  predicate Applied(steps: seq<Step>, kind: Kind, owner: string, target: string) {
    exists i :: 0 <= i < |steps| && steps[i].kind == kind && steps[i].owner == owner && steps[i].target == target
  }

  lemma AppliedMore(steps: seq<Step>, kind: Kind, owner: string, target: string)
    requires steps != []
    ensures var s := steps[|steps| - 1];
      Applied(steps, kind, owner, target)
      <==> Applied(steps[..|steps| - 1], kind, owner, target)
           || (s.kind == kind && s.owner == owner && s.target == target)
  {
    var init := steps[..|steps| - 1];
    assert forall i :: 0 <= i < |init| ==> init[i] == steps[i];
  }

  /** A resource is in the rollback plan exactly if some step claimed it. */
  lemma {:induction false} PartExact(plan: Plan, steps: seq<Step>, k: Kind)
    ensures var x := Part(plan, k);
      Part(RollbackPlan(plan, steps), k) == if Applied(steps, k, x.owner, x.target) then x else NOTHING
  {
    if steps != [] {
      PartExact(plan, steps[..|steps| - 1], k);
      AppliedMore(steps, k, Part(plan, k).owner, Part(plan, k).target);
    }
  }

  lemma {:induction false} RouteExact(plan: Plan, steps: seq<Step>, r: Route)
    ensures r in RollbackPlan(plan, steps).routes
      <==> r in plan.routes && Applied(steps, RouteStep, ROUTE_OWNER, RouteTarget(r))
  {
    if steps != [] {
      var s := steps[|steps| - 1];
      RouteExact(plan, steps[..|steps| - 1], r);
      AppliedMore(steps, RouteStep, ROUTE_OWNER, RouteTarget(r));
      FilterMember(plan.routes, On(RouteTarget, s.target), r);
    }
  }

  lemma {:induction false} RuleExact(plan: Plan, steps: seq<Step>, r: Rule)
    ensures r in RollbackPlan(plan, steps).rules
      <==> r in plan.rules && Applied(steps, RuleStep, RULE_OWNER, RuleTarget(r))
  {
    if steps != [] {
      var s := steps[|steps| - 1];
      RuleExact(plan, steps[..|steps| - 1], r);
      AppliedMore(steps, RuleStep, RULE_OWNER, RuleTarget(r));
      FilterMember(plan.rules, On(RuleTarget, s.target), r);
    }
  }

  /** A single resource is undone exactly if rollback owns it, it is named, and its own step was applied. */
  predicate Undoes(names: seq<string>, x: Single, steps: seq<Step>, kind: Kind) {
    names == if x.owned && x.name != "" && Applied(steps, kind, x.owner, x.target) then [x.name] else []
  }

  /** A route is undone exactly if the plan adds it and the step for its table and destination was applied. */
  ghost predicate RouteUndone(plan: Plan, steps: seq<Step>, e: RouteRollback) {
    exists r :: r in plan.routes && r.added
      && Applied(steps, RouteStep, "podlaz:route", r.table + " " + r.destination)
      && e == RouteRollback(r.table, r.destination, r.gateway, r.interface_, "podlaz:route")
  }

  ghost predicate RuleUndone(plan: Plan, steps: seq<Step>, e: RuleRollback) {
    exists r :: r in plan.rules && r.added
      && Applied(steps, RuleStep, "podlaz:policy-rule", PersistedText.PolicyTarget(r.rule))
      && e == RuleRollback(PersistedText.RollbackOf(r.rule), "podlaz:policy-rule")
  }

  lemma MappedMember<T, E>(s: seq<T>, p: T -> bool, f: T -> E, e: E)
    ensures e in Mapped(Filter(s, p), f) <==> exists x :: x in s && p(x) && f(x) == e
  {
    var kept := Filter(s, p);
    MappedAt(kept, f);
    if e in Mapped(kept, f) {
      var i :| 0 <= i < |kept| && Mapped(kept, f)[i] == e;
      FilterMember(s, p, kept[i]);
    }
    if x :| x in s && p(x) && f(x) == e {
      FilterMember(s, p, x);
      var i :| 0 <= i < |kept| && kept[i] == x;
      assert Mapped(kept, f)[i] == e;
    }
  }

  lemma RoutesUndone(plan: Plan, steps: seq<Step>, e: RouteRollback)
    ensures e in RouteMetadata(RollbackPlan(plan, steps).routes) <==> RouteUndone(plan, steps, e)
  {
    var routes := RollbackPlan(plan, steps).routes;
    MappedMember(routes, RouteAdded, RouteEntry, e);
    if r :| r in routes && RouteAdded(r) && RouteEntry(r) == e { RouteExact(plan, steps, r); }
    if RouteUndone(plan, steps, e) {
      var r :| r in plan.routes && r.added
        && Applied(steps, RouteStep, "podlaz:route", r.table + " " + r.destination)
        && e == RouteRollback(r.table, r.destination, r.gateway, r.interface_, "podlaz:route");
      RouteExact(plan, steps, r);
      assert RouteAdded(r) && RouteEntry(r) == e;
    }
  }

  lemma RulesUndone(plan: Plan, steps: seq<Step>, e: RuleRollback)
    ensures e in RuleMetadata(RollbackPlan(plan, steps).rules) <==> RuleUndone(plan, steps, e)
  {
    var rules := RollbackPlan(plan, steps).rules;
    MappedMember(rules, RuleAdded, RuleEntry, e);
    if r :| r in rules && RuleAdded(r) && RuleEntry(r) == e { RuleExact(plan, steps, r); }
    if RuleUndone(plan, steps, e) {
      var r :| r in plan.rules && r.added
        && Applied(steps, RuleStep, "podlaz:policy-rule", PersistedText.PolicyTarget(r.rule))
        && e == RuleRollback(PersistedText.RollbackOf(r.rule), "podlaz:policy-rule");
      RuleExact(plan, steps, r);
      assert RuleAdded(r) && RuleEntry(r) == e;
    }
  }

  /** Whatever was applied, each list of the metadata undoes exactly the plan's resources of its own kind. */
  lemma UndoesExactly(plan: Plan, steps: seq<Step>)
    ensures var m := MetadataOf(RollbackPlan(plan, steps));
      && Undoes(m.devices, plan.device, steps, DeviceStep) && Undoes(m.addresses, plan.address, steps, AddressStep)
      && Undoes(m.dns, plan.dns, steps, DnsStep) && Undoes(m.tables, plan.firewall, steps, FirewallStep)
      && (forall e :: e in m.routes <==> RouteUndone(plan, steps, e))
      && (forall e :: e in m.rules <==> RuleUndone(plan, steps, e))
      && m.configs == [] && m.children == []
  {
    PartExact(plan, steps, DeviceStep);
    PartExact(plan, steps, AddressStep);
    PartExact(plan, steps, DnsStep);
    PartExact(plan, steps, FirewallStep);
    forall e ensures e in MetadataOf(RollbackPlan(plan, steps)).routes <==> RouteUndone(plan, steps, e) {
      RoutesUndone(plan, steps, e);
    }
    forall e ensures e in MetadataOf(RollbackPlan(plan, steps)).rules <==> RuleUndone(plan, steps, e) {
      RulesUndone(plan, steps, e);
    }
  }

  predicate NamesSingle(x: Single, step: Step) {
    x.name != "" && step.owner == x.owner && step.target == x.target
  }

  ghost predicate NamesRoute(plan: Plan, step: Step) {
    step.owner == "podlaz:route" && exists r :: r in plan.routes && r.table + " " + r.destination == step.target
  }

  ghost predicate NamesRule(plan: Plan, step: Step) {
    && step.owner == "podlaz:policy-rule"
    && exists r :: r in plan.rules && PersistedText.PolicyTarget(r.rule) == step.target
  }

  lemma RoutesNamed(plan: Plan, step: Step)
    requires step.kind.RouteStep?
    ensures RoutesOf(plan, step) != [] <==> NamesRoute(plan, step)
  {
    var routes := RoutesOf(plan, step);
    if routes != [] {
      FilterMember(plan.routes, On(RouteTarget, step.target), routes[0]);
      assert routes[0].table + " " + routes[0].destination == step.target;
    }
    if NamesRoute(plan, step) {
      var r :| r in plan.routes && r.table + " " + r.destination == step.target;
      FilterMember(plan.routes, On(RouteTarget, step.target), r);
    }
  }

  lemma RulesNamed(plan: Plan, step: Step)
    requires step.kind.RuleStep?
    ensures RulesOf(plan, step) != [] <==> NamesRule(plan, step)
  {
    var rules := RulesOf(plan, step);
    if rules != [] {
      FilterMember(plan.rules, On(RuleTarget, step.target), rules[0]);
      assert PersistedText.PolicyTarget(rules[0].rule) == step.target;
    }
    if NamesRule(plan, step) {
      var r :| r in plan.rules && PersistedText.PolicyTarget(r.rule) == step.target;
      FilterMember(plan.rules, On(RuleTarget, step.target), r);
    }
  }

  /** A step is ours exactly if it names a resource of the plan, by kind, owner and target. */
  lemma OwnedIff(plan: Plan, step: Step)
    ensures Owned(plan, step) <==>
      match step.kind
      case DeviceStep => NamesSingle(plan.device, step)
      case AddressStep => NamesSingle(plan.address, step)
      case RouteStep => NamesRoute(plan, step)
      case RuleStep => NamesRule(plan, step)
      case DnsStep => NamesSingle(plan.dns, step)
      case FirewallStep => NamesSingle(plan.firewall, step)
      case OtherStep => false
  {
    OneMore(plan, [], step);
    assert [] + [step] == [step];
    if step.kind.RouteStep? { RoutesNamed(plan, step); }
    if step.kind.RuleStep? { RulesNamed(plan, step); }
  }

  lemma OneMore(plan: Plan, steps: seq<Step>, s: Step)
    ensures Extended(RollbackPlan(plan, steps), plan, s, RollbackPlan(plan, steps + [s]))
  {
    assert (steps + [s])[..|steps|] == steps;
    ExtendClaims(RollbackPlan(plan, steps), plan, s);
  }

  /** What a new step claims, no earlier one has claimed. */
  lemma Unclaimed(plan: Plan, steps: seq<Step>, s: Step)
    requires !HasStep(steps, s)
    ensures StillFree(RollbackPlan(plan, steps), plan, s)
  {
    PartExact(plan, steps, s.kind);
    assert forall i :: 0 <= i < |steps| ==> !SameKey(steps[i], s);
  }

  /** Recording one new step adds exactly that step's own metadata. */
  lemma GrowsByOne(plan: Plan, steps: seq<Step>, s: Step)
    requires !HasStep(steps, s)
    ensures MetadataOf(RollbackPlan(plan, steps + [s]))
      == Merge(MetadataOf(RollbackPlan(plan, steps)), MetadataOf(RollbackPlan(plan, [s])))
  {
    OneMore(plan, steps, s);
    OneMore(plan, [], s);
    assert [] + [s] == [s];
    Unclaimed(plan, steps, s);
    GrowMetadata(RollbackPlan(plan, steps), RollbackPlan(plan, [s]), RollbackPlan(plan, steps + [s]), plan, s);
  }

  ghost predicate StillFree(before: Plan, plan: Plan, s: Step) {
    && (ClaimsOf(plan, s, DeviceStep, plan.device) ==> before.device == NOTHING)
    && (ClaimsOf(plan, s, AddressStep, plan.address) ==> before.address == NOTHING)
    && (ClaimsOf(plan, s, DnsStep, plan.dns) ==> before.dns == NOTHING)
    && (ClaimsOf(plan, s, FirewallStep, plan.firewall) ==> before.firewall == NOTHING)
  }

  predicate ClaimsOf(plan: Plan, s: Step, k: Kind, x: Single) {
    s.kind == k && Claims(s, x)
  }

  function Claimed(before: Single, s: Single, claimed: bool): Single {
    if claimed then s else before
  }

  /** What one step does to each part of a rollback plan. */
  ghost predicate Extended(before: Plan, plan: Plan, s: Step, after: Plan) {
    && after.device == Claimed(before.device, plan.device, ClaimsOf(plan, s, DeviceStep, plan.device))
    && after.address == Claimed(before.address, plan.address, ClaimsOf(plan, s, AddressStep, plan.address))
    && after.dns == Claimed(before.dns, plan.dns, ClaimsOf(plan, s, DnsStep, plan.dns))
    && after.firewall == Claimed(before.firewall, plan.firewall, ClaimsOf(plan, s, FirewallStep, plan.firewall))
    && after.routes == before.routes + RoutesOf(plan, s) && after.rules == before.rules + RulesOf(plan, s)
  }

  lemma ExtendClaims(before: Plan, plan: Plan, s: Step)
    ensures Extended(before, plan, s, Extend(before, plan, s))
  {
  }

  predicate IsRouteStep(s: Step) {
    s.kind.RouteStep? && s.owner == ROUTE_OWNER
  }

  predicate IsRuleStep(s: Step) {
    s.kind.RuleStep? && s.owner == RULE_OWNER
  }

  function RoutesOf(plan: Plan, s: Step): seq<Route> {
    if IsRouteStep(s) then Filter(plan.routes, On(RouteTarget, s.target)) else []
  }

  function RulesOf(plan: Plan, s: Step): seq<Rule> {
    if IsRuleStep(s) then Filter(plan.rules, On(RuleTarget, s.target)) else []
  }

  predicate Grows(before: Single, one: Single, after: Single, s: Single, claimed: bool) {
    after == Claimed(before, s, claimed) && one == Claimed(NOTHING, s, claimed) && (claimed ==> before == NOTHING)
  }

  lemma SingleGrows(before: Single, one: Single, after: Single, s: Single, claimed: bool)
    requires Grows(before, one, after, s, claimed)
    ensures SingleMetadata(after) == SingleMetadata(before) + SingleMetadata(one)
  {
  }

  lemma GrowMetadata(before: Plan, one: Plan, after: Plan, plan: Plan, s: Step)
    requires StillFree(before, plan, s) && Extended(before, plan, s, after) && Extended(BLANK, plan, s, one)
    ensures MetadataOf(after) == Merge(MetadataOf(before), MetadataOf(one))
  {
    assert one.routes == RoutesOf(plan, s) && one.rules == RulesOf(plan, s);
    SingleGrows(before.device, one.device, after.device, plan.device, ClaimsOf(plan, s, DeviceStep, plan.device));
    SingleGrows(before.address, one.address, after.address, plan.address, ClaimsOf(plan, s, AddressStep, plan.address));
    SingleGrows(before.dns, one.dns, after.dns, plan.dns, ClaimsOf(plan, s, DnsStep, plan.dns));
    SingleGrows(before.firewall, one.firewall, after.firewall, plan.firewall,
                ClaimsOf(plan, s, FirewallStep, plan.firewall));
    MetadataAppends(before, one.routes, one.rules);
  }

  // ---------------------------------------------------------------- validation

  predicate OwnerMatches(owner: string, expected: string) {
    Text.Trim(owner) == expected || Text.Trim(owner) == OWNER
  }

  /** appliedStepDescription: the description of the first matching step. */
  function AppliedDescription(applied: seq<Step>, kind: Kind, target: string, owner: string): string {
    if applied == [] then ""
    else if applied[0].kind == kind && applied[0].target == target && OwnerMatches(applied[0].owner, owner)
    then applied[0].description
    else AppliedDescription(applied[1..], kind, target, owner)
  }

  /** The desired routes with this exact tuple. */
  function DesiredRoute(e: RouteRollback): Route -> bool {
    (r: Route) =>
      r.added && r.table == e.table && r.destination == e.cidr && r.gateway == e.via && r.interface_ == e.dev
  }

  /** The desired policy-rule steps with this exact target. */
  function DesiredRule(target: string): Rule -> bool {
    (r: Rule) => r.added && RuleTarget(r) == target
  }

  function FullKey(e: RouteRollback): string {
    e.table + "|" + (e.cidr + "|" + (e.via + "|" + e.dev))
  }

  function TargetOf(e: RuleRollback): string {
    PersistedText.RollbackTarget(e.rule)
  }

  predicate RouteEntryValid(plan: Plan, applied: seq<Step>, e: RouteRollback) {
    && OwnerMatches(e.owner, ROUTE_OWNER) && Text.Trim(e.table) != "" && Text.Trim(e.cidr) != ""
    && Count(plan.routes, DesiredRoute(e)) == 1
    && AppliedDescription(applied, RouteStep, e.table + " " + e.cidr, ROUTE_OWNER) != ""
  }

  predicate RuleEntryValid(plan: Plan, applied: seq<Step>, e: RuleRollback) {
    && OwnerMatches(e.owner, RULE_OWNER) && e.rule.priority > 0 && Text.Trim(e.rule.table) != ""
    && Count(plan.rules, DesiredRule(TargetOf(e))) == 1
    && AppliedDescription(applied, RuleStep, TargetOf(e), RULE_OWNER) != ""
  }

  /** validateRouteRollbackEntries. */
  predicate RoutesValid(plan: Plan, applied: seq<Step>, entries: seq<RouteRollback>) {
    forall e :: e in entries ==> RouteEntryValid(plan, applied, e) && Count(entries, On(FullKey, FullKey(e))) == 1
  }

  /** validatePolicyRuleRollbackEntries. */
  predicate RulesValid(plan: Plan, applied: seq<Step>, entries: seq<RuleRollback>) {
    forall e :: e in entries ==> RuleEntryValid(plan, applied, e) && Count(entries, On(TargetOf, TargetOf(e))) == 1
  }

  /** What was recorded for these steps passes both validators. */
  predicate Validates(plan: Plan, applied: seq<Step>) {
    var m := MetadataOf(RollbackPlan(plan, applied));
    RoutesValid(plan, applied, m.routes) && RulesValid(plan, applied, m.rules)
  }

  predicate Described(steps: seq<Step>) {
    forall i :: 0 <= i < |steps| ==> steps[i].description != ""
  }

  // ---------------------------------------------------------------- which plans validate

  /** The added routes whose rollback entry has this joined key. */
  function KeyedRoute(key: string): Route -> bool {
    Both(RouteAdded, Via(RouteEntry, On(FullKey, key)))
  }

  /** Complete, and no other added route has its joined key. */
  predicate RouteFits(plan: Plan, r: Route) {
    && Text.Trim(r.table) != "" && Text.Trim(r.destination) != ""
    && Count(plan.routes, KeyedRoute(FullKey(RouteEntry(r)))) == 1
  }

  /** Complete, with a canonical selector, and no other added rule has its target. */
  predicate RuleFits(plan: Plan, r: Rule) {
    && r.rule.priority > 0 && Text.Trim(r.rule.table) != "" && PersistedText.CanonicalSelector(r.rule.selector)
    && Count(plan.rules, DesiredRule(RuleTarget(r))) == 1
  }

  predicate WellFormed(plan: Plan) {
    && (forall r :: r in plan.routes && r.added ==> RouteFits(plan, r))
    && (forall r :: r in plan.rules && r.added ==> RuleFits(plan, r))
  }

  // ---------------------------------------------------------------- what was recorded, by target

  function StepTarget(s: Step): string {
    s.target
  }

  /** The targets of the recorded steps of one kind. */
  function TargetsOf(steps: seq<Step>, sort: Step -> bool): seq<string> {
    Mapped(Filter(steps, sort), StepTarget)
  }

  lemma TargetsAppend(steps: seq<Step>, s: Step, sort: Step -> bool)
    ensures TargetsOf(steps + [s], sort) == TargetsOf(steps, sort) + (if sort(s) then [s.target] else [])
  {
    FilterAppend(steps, [s], sort);
    FilterOne(s, sort);
    MappedAppend(Filter(steps, sort), Filter([s], sort), StepTarget);
    MappedAt(Filter([s], sort), StepTarget);
    assert TargetsOf([s], sort) == if sort(s) then [s.target] else [];
  }

  lemma TargetsMember(steps: seq<Step>, sort: Step -> bool, t: string)
    ensures t in TargetsOf(steps, sort) <==> exists j :: 0 <= j < |steps| && sort(steps[j]) && steps[j].target == t
  {
    var some := Filter(steps, sort);
    MappedAt(some, StepTarget);
    if t in TargetsOf(steps, sort) {
      var k :| 0 <= k < |some| && some[k].target == t;
      FilterMember(steps, sort, some[k]);
    }
    if j :| 0 <= j < |steps| && sort(steps[j]) && steps[j].target == t {
      FilterMember(steps, sort, steps[j]);
      var k :| 0 <= k < |some| && some[k] == steps[j];
      assert TargetsOf(steps, sort)[k] == t;
    }
  }

  ghost predicate OneKind(sort: Step -> bool) {
    forall a, b :: sort(a) && sort(b) ==> a.kind == b.kind && a.owner == b.owner
  }

  lemma {:induction false} TargetsDistinct(steps: seq<Step>, sort: Step -> bool)
    requires KeysDiffer(steps) && OneKind(sort)
    ensures NoDuplicates(TargetsOf(steps, sort))
  {
    if steps != [] {
      var init, s := steps[..|steps| - 1], steps[|steps| - 1];
      assert steps == init + [s];
      TargetsDistinct(init, sort);
      TargetsAppend(init, s, sort);
      TargetsMember(init, sort, s.target);
      assert forall j :: 0 <= j < |init| ==> init[j] == steps[j];
    }
  }

  lemma {:induction false} GatheredByTarget(plan: Plan, steps: seq<Step>)
    ensures RollbackPlan(plan, steps).routes == Gathered(plan.routes, RouteTarget, TargetsOf(steps, IsRouteStep))
    ensures RollbackPlan(plan, steps).rules == Gathered(plan.rules, RuleTarget, TargetsOf(steps, IsRuleStep))
  {
    if steps != [] {
      var init, s := steps[..|steps| - 1], steps[|steps| - 1];
      assert steps == init + [s];
      GatheredByTarget(plan, init);
      OneMore(plan, init, s);
      GatheredStep(plan.routes, RouteTarget, init, s, IsRouteStep);
      GatheredStep(plan.rules, RuleTarget, init, s, IsRuleStep);
    }
  }

  lemma GatheredStep<T>(items: seq<T>, target: T -> string, steps: seq<Step>, s: Step, sort: Step -> bool)
    ensures Gathered(items, target, TargetsOf(steps + [s], sort))
      == Gathered(items, target, TargetsOf(steps, sort)) + (if sort(s) then Filter(items, On(target, s.target)) else [])
  {
    TargetsAppend(steps, s, sort);
    assert TargetsOf(steps, sort) + [] == TargetsOf(steps, sort);
    GatheredMore(items, target, TargetsOf(steps, sort), s.target);
  }

  function RoutesAfter(plan: Plan, steps: seq<Step>): seq<RouteRollback> {
    MetadataOf(RollbackPlan(plan, steps)).routes
  }

  function RulesAfter(plan: Plan, steps: seq<Step>): seq<RuleRollback> {
    MetadataOf(RollbackPlan(plan, steps)).rules
  }

  /** How often a key was recorded, in terms of the plan alone. */
  lemma RouteKeyCount(plan: Plan, steps: seq<Step>, key: string)
    requires KeysDiffer(steps)
    ensures Count(RoutesAfter(plan, steps), On(FullKey, key))
      == Count(plan.routes, Both(KeyedRoute(key), Within(RouteTarget, TargetsOf(steps, IsRouteStep))))
  {
    TargetsDistinct(steps, IsRouteStep);
    GatheredByTarget(plan, steps);
    EntriesCount(plan.routes, RouteTarget, TargetsOf(steps, IsRouteStep), RouteAdded, RouteEntry, On(FullKey, key));
  }

  lemma RuleKeyCount(plan: Plan, steps: seq<Step>, key: string)
    requires KeysDiffer(steps)
    ensures Count(RulesAfter(plan, steps), On(TargetOf, key))
      == Count(plan.rules, Both(Both(RuleAdded, Via(RuleEntry, On(TargetOf, key))),
                                Within(RuleTarget, TargetsOf(steps, IsRuleStep))))
  {
    TargetsDistinct(steps, IsRuleStep);
    GatheredByTarget(plan, steps);
    EntriesCount(plan.rules, RuleTarget, TargetsOf(steps, IsRuleStep), RuleAdded, RuleEntry, On(TargetOf, key));
  }

  lemma RouteRecorded(plan: Plan, steps: seq<Step>, e: RouteRollback)
    requires KeysDiffer(steps)
    ensures e in RoutesAfter(plan, steps)
      <==> (exists r :: r in plan.routes && r.added && RouteTarget(r) in TargetsOf(steps, IsRouteStep)
                        && RouteEntry(r) == e)
  {
    TargetsDistinct(steps, IsRouteStep);
    GatheredByTarget(plan, steps);
    EntriesMember(plan.routes, RouteTarget, TargetsOf(steps, IsRouteStep), RouteAdded, RouteEntry, e);
  }

  lemma RuleRecorded(plan: Plan, steps: seq<Step>, e: RuleRollback)
    requires KeysDiffer(steps)
    ensures e in RulesAfter(plan, steps)
      <==> exists r :: r in plan.rules && r.added && RuleTarget(r) in TargetsOf(steps, IsRuleStep) && RuleEntry(r) == e
  {
    TargetsDistinct(steps, IsRuleStep);
    GatheredByTarget(plan, steps);
    EntriesMember(plan.rules, RuleTarget, TargetsOf(steps, IsRuleStep), RuleAdded, RuleEntry, e);
  }

  // ---------------------------------------------------------------- a well-formed plan always validates

  lemma {:induction false} DescriptionFound(applied: seq<Step>, k: nat, kind: Kind, owner: string)
    requires k < |applied| && applied[k].kind == kind && OwnerMatches(applied[k].owner, owner) && Described(applied)
    ensures AppliedDescription(applied, kind, applied[k].target, owner) != ""
  {
    if k > 0 {
      assert applied[1..][k - 1] == applied[k];
      assert Described(applied[1..]);
      DescriptionFound(applied[1..], k - 1, kind, owner);
    }
  }

  lemma OwnersTrimmed()
    ensures OwnerMatches(ROUTE_OWNER, ROUTE_OWNER) && OwnerMatches(RULE_OWNER, RULE_OWNER)
  {
    Text.TrimTrims(ROUTE_OWNER);
    Text.TrimTrims(RULE_OWNER);
  }

  /** A recorded target has its applied proof. */
  lemma TargetDescribed(steps: seq<Step>, sort: Step -> bool, kind: Kind, owner: string, t: string)
    requires Described(steps) && t in TargetsOf(steps, sort)
    requires forall s :: sort(s) ==> s.kind == kind && OwnerMatches(s.owner, owner)
    ensures AppliedDescription(steps, kind, t, owner) != ""
  {
    TargetsMember(steps, sort, t);
    var j :| 0 <= j < |steps| && sort(steps[j]) && steps[j].target == t;
    DescriptionFound(steps, j, kind, owner);
  }

  lemma RouteValid(plan: Plan, steps: seq<Step>, r: Route)
    requires Described(steps) && r in plan.routes && r.added && RouteFits(plan, r)
    requires RouteTarget(r) in TargetsOf(steps, IsRouteStep)
    ensures RouteEntryValid(plan, steps, RouteEntry(r))
  {
    var e := RouteEntry(r);
    OwnersTrimmed();
    TargetDescribed(steps, IsRouteStep, RouteStep, ROUTE_OWNER, RouteTarget(r));
    CountSome(plan.routes, DesiredRoute(e));
    CountMore(plan.routes, DesiredRoute(e), KeyedRoute(FullKey(e)));
  }

  lemma RouteUnique(plan: Plan, steps: seq<Step>, r: Route)
    requires KeysDiffer(steps) && RouteFits(plan, r) && RouteEntry(r) in RoutesAfter(plan, steps)
    ensures Count(RoutesAfter(plan, steps), On(FullKey, FullKey(RouteEntry(r)))) == 1
  {
    var key := FullKey(RouteEntry(r));
    RouteKeyCount(plan, steps, key);
    CountSome(RoutesAfter(plan, steps), On(FullKey, key));
    CountMore(plan.routes, Both(KeyedRoute(key), Within(RouteTarget, TargetsOf(steps, IsRouteStep))), KeyedRoute(key));
  }

  lemma RoutesValidate(plan: Plan, steps: seq<Step>)
    requires WellFormed(plan) && KeysDiffer(steps) && Described(steps)
    ensures RoutesValid(plan, steps, RoutesAfter(plan, steps))
  {
    var entries := RoutesAfter(plan, steps);
    forall e | e in entries ensures RouteEntryValid(plan, steps, e) && Count(entries, On(FullKey, FullKey(e))) == 1 {
      RouteRecorded(plan, steps, e);
      var r :| r in plan.routes && r.added && RouteTarget(r) in TargetsOf(steps, IsRouteStep) && RouteEntry(r) == e;
      RouteValid(plan, steps, r);
      RouteUnique(plan, steps, r);
    }
  }

  lemma RuleValid(plan: Plan, steps: seq<Step>, r: Rule)
    requires Described(steps) && RuleFits(plan, r) && RuleTarget(r) in TargetsOf(steps, IsRuleStep)
    ensures RuleEntryValid(plan, steps, RuleEntry(r))
  {
    OwnersTrimmed();
    PersistedText.RollbackTargetMatches(r.rule);
    TargetDescribed(steps, IsRuleStep, RuleStep, RULE_OWNER, RuleTarget(r));
  }

  lemma RuleUnique(plan: Plan, steps: seq<Step>, r: Rule)
    requires WellFormed(plan) && KeysDiffer(steps) && RuleFits(plan, r) && RuleEntry(r) in RulesAfter(plan, steps)
    ensures Count(RulesAfter(plan, steps), On(TargetOf, TargetOf(RuleEntry(r)))) == 1
  {
    var key := TargetOf(RuleEntry(r));
    PersistedText.RollbackTargetMatches(r.rule);
    RuleKeyCount(plan, steps, key);
    CountSome(RulesAfter(plan, steps), On(TargetOf, key));
    var counted := Both(Both(RuleAdded, Via(RuleEntry, On(TargetOf, key))),
                        Within(RuleTarget, TargetsOf(steps, IsRuleStep)));
    forall x | x in plan.rules && counted(x) ensures DesiredRule(key)(x) {
      assert RuleFits(plan, x);
      PersistedText.RollbackTargetMatches(x.rule);
    }
    CountMore(plan.rules, counted, DesiredRule(key));
  }

  lemma RulesValidate(plan: Plan, steps: seq<Step>)
    requires WellFormed(plan) && KeysDiffer(steps) && Described(steps)
    ensures RulesValid(plan, steps, RulesAfter(plan, steps))
  {
    var entries := RulesAfter(plan, steps);
    forall e | e in entries ensures RuleEntryValid(plan, steps, e) && Count(entries, On(TargetOf, TargetOf(e))) == 1 {
      RuleRecorded(plan, steps, e);
      var r :| r in plan.rules && r.added && RuleTarget(r) in TargetsOf(steps, IsRuleStep) && RuleEntry(r) == e;
      RuleValid(plan, steps, r);
      RuleUnique(plan, steps, r);
    }
  }

  // ---------------------------------------------------------------- and only such a plan does

  function RouteStepOf(r: Route): Step {
    Step(RouteStep, RouteTarget(r), "applied", ROUTE_OWNER)
  }

  function RuleStepOf(r: Rule): Step {
    Step(RuleStep, RuleTarget(r), "applied", RULE_OWNER)
  }

  /** Every route and every rule of the plan, applied in order. */
  function FullRun(plan: Plan): seq<Step> {
    Mapped(plan.routes, RouteStepOf) + Mapped(plan.rules, RuleStepOf)
  }

  lemma FullRunDescribed(plan: Plan)
    ensures Described(FullRun(plan))
  {
    MappedAt(plan.routes, RouteStepOf);
    MappedAt(plan.rules, RuleStepOf);
  }

  lemma {:induction false} CollectedCovers(steps: seq<Step>, k: nat)
    requires k < |steps|
    ensures HasStep(Distinct(steps), steps[k])
  {
    var n := |steps| - 1;
    var before := Distinct(steps[..n]);
    if k < n {
      CollectedCovers(steps[..n], k);
      var i :| 0 <= i < |before| && SameKey(before[i], steps[k]);
      assert Distinct(steps)[i] == before[i];
    } else if !HasStep(before, steps[n]) {
      assert Distinct(steps)[|before|] == steps[n];
    }
  }

  lemma RunCovers(steps: seq<Step>, k: nat, sort: Step -> bool)
    requires k < |steps| && sort(steps[k]) && forall a, b :: SameKey(a, b) ==> sort(a) == sort(b)
    ensures steps[k].target in TargetsOf(Distinct(steps), sort)
  {
    CollectedCovers(steps, k);
    var d := Distinct(steps);
    var i :| 0 <= i < |d| && SameKey(d[i], steps[k]);
    TargetsMember(d, sort, steps[k].target);
  }

  lemma FullRunTargets(plan: Plan)
    ensures forall r :: r in plan.routes ==> RouteTarget(r) in TargetsOf(Distinct(FullRun(plan)), IsRouteStep)
    ensures forall r :: r in plan.rules ==> RuleTarget(r) in TargetsOf(Distinct(FullRun(plan)), IsRuleStep)
  {
    var run := FullRun(plan);
    MappedAt(plan.routes, RouteStepOf);
    MappedAt(plan.rules, RuleStepOf);
    forall r | r in plan.routes ensures RouteTarget(r) in TargetsOf(Distinct(run), IsRouteStep) {
      var i :| 0 <= i < |plan.routes| && plan.routes[i] == r;
      assert run[i] == RouteStepOf(r);
      RunCovers(run, i, IsRouteStep);
    }
    forall r | r in plan.rules ensures RuleTarget(r) in TargetsOf(Distinct(run), IsRuleStep) {
      var i :| 0 <= i < |plan.rules| && plan.rules[i] == r;
      assert run[|plan.routes| + i] == RuleStepOf(r);
      RunCovers(run, |plan.routes| + i, IsRuleStep);
    }
  }

  /** Had the whole plan been applied and passed, every route would fit. */
  lemma RouteMustFit(plan: Plan, r: Route)
    requires RoutesValid(plan, Distinct(FullRun(plan)), RoutesAfter(plan, Distinct(FullRun(plan))))
    requires r in plan.routes && r.added
    ensures RouteFits(plan, r)
  {
    var d, e := Distinct(FullRun(plan)), RouteEntry(r);
    DistinctKeys(FullRun(plan));
    FullRunTargets(plan);
    RouteRecorded(plan, d, e);
    assert RouteEntryValid(plan, d, e);
    RouteKeyCount(plan, d, FullKey(e));
    var all := Both(KeyedRoute(FullKey(e)), Within(RouteTarget, TargetsOf(d, IsRouteStep)));
    CountMore(plan.routes, KeyedRoute(FullKey(e)), all);
    CountMore(plan.routes, all, KeyedRoute(FullKey(e)));
  }

  lemma {:induction false} ProofHasStep(applied: seq<Step>, kind: Kind, target: string, owner: string)
    requires AppliedDescription(applied, kind, target, owner) != ""
    ensures exists k :: 0 <= k < |applied| && applied[k].target == target
  {
    if applied[0].target != target {
      ProofHasStep(applied[1..], kind, target, owner);
      var k :| 0 <= k < |applied[1..]| && applied[1..][k].target == target;
      assert applied[k + 1].target == target;
    }
  }

  /** Had the rule alone been applied and passed, it would fit. */
  lemma RuleMustFit(plan: Plan, r: Rule)
    requires RulesValid(plan, Distinct([RuleStepOf(r)]), RulesAfter(plan, Distinct([RuleStepOf(r)])))
    requires r in plan.rules && r.added
    ensures RuleFits(plan, r)
  {
    var run, e := [RuleStepOf(r)], RuleEntry(r);
    var d := Distinct(run);
    assert run[..0] == [] && Collected([], run[..0]) == [];
    assert d == run;
    DistinctKeys(run);
    RunCovers(run, 0, IsRuleStep);
    RuleRecorded(plan, d, e);
    assert RuleEntryValid(plan, d, e);
    ProofHasStep(d, RuleStep, TargetOf(e), RULE_OWNER);
    PersistedText.RollbackTargetMatches(r.rule);
  }

  // ---------------------------------------------------------------- main result

  lemma {:induction false} DistinctDescribed(steps: seq<Step>)
    requires Described(steps)
    ensures Described(Distinct(steps))
  {
    if steps != [] { DistinctDescribed(steps[..|steps| - 1]); }
  }

  /** Whenever the process stops, what it recorded so far validates. */
  lemma EveryPrefixValidates(plan: Plan, steps: seq<Step>)
    requires WellFormed(plan) && Described(steps)
    ensures Validates(plan, Distinct(steps))
  {
    DistinctKeys(steps);
    DistinctDescribed(steps);
    RoutesValidate(plan, Distinct(steps));
    RulesValidate(plan, Distinct(steps));
  }

  /**
   Exactly the well-formed plans: after every list of described steps, in every order and with any
   repetitions, what was recorded validates.
   */
  lemma ValidatesIff(plan: Plan)
    ensures (forall steps :: Described(steps) ==> Validates(plan, Distinct(steps))) <==> WellFormed(plan)
  {
    if WellFormed(plan) {
      forall steps | Described(steps) ensures Validates(plan, Distinct(steps)) { EveryPrefixValidates(plan, steps); }
    }
    if forall steps :: Described(steps) ==> Validates(plan, Distinct(steps)) {
      FullRunDescribed(plan);
      forall r | r in plan.routes && r.added ensures RouteFits(plan, r) { RouteMustFit(plan, r); }
      forall r | r in plan.rules && r.added ensures RuleFits(plan, r) {
        assert Described([RuleStepOf(r)]);
        RuleMustFit(plan, r);
      }
    }
  }

  // ---------------------------------------------------------------- bars in route fields

  predicate NoBar(s: string) {
    '|' !in s
  }

  lemma KeysSeparate(e: RouteRollback, f: RouteRollback)
    requires NoBar(e.table) && NoBar(f.table) && NoBar(e.cidr) && NoBar(f.cidr) && FullKey(e) == FullKey(f)
    ensures e.table == f.table && e.cidr == f.cidr
  {
    Text.CutAt(e.table, e.cidr + "|" + (e.via + "|" + e.dev), f.table, f.cidr + "|" + (f.via + "|" + f.dev), '|');
    Text.CutAt(e.cidr, e.via + "|" + e.dev, f.cidr, f.via + "|" + f.dev, '|');
  }

  predicate DistinctTargets(routes: seq<Route>) {
    forall i, j :: 0 <= i < j < |routes| && routes[i].added && routes[j].added ==>
      RouteTarget(routes[i]) != RouteTarget(routes[j])
  }

  /** Where no table or destination contains a bar, distinct targets are enough. */
  lemma TargetsSuffice(plan: Plan, i: nat)
    requires DistinctTargets(plan.routes) && i < |plan.routes| && plan.routes[i].added
    requires forall j :: 0 <= j < |plan.routes| ==> NoBar(plan.routes[j].table) && NoBar(plan.routes[j].destination)
    ensures Count(plan.routes, KeyedRoute(FullKey(RouteEntry(plan.routes[i])))) == 1
  {
    var e := RouteEntry(plan.routes[i]);
    var keyed := KeyedRoute(FullKey(e));
    forall j | 0 <= j < |plan.routes| && j != i ensures !keyed(plan.routes[j]) {
      if keyed(plan.routes[j]) { KeysSeparate(e, RouteEntry(plan.routes[j])); }
    }
    CountOnce(plan.routes, keyed, i);
  }

  /** Two added routes with one joined key, applied in full, fail validation. */
  lemma SameKeyFails(plan: Plan, a: Route, b: Route)
    requires plan.routes == [a, b] && a.added && b.added && FullKey(RouteEntry(a)) == FullKey(RouteEntry(b))
    ensures !Validates(plan, Distinct(FullRun(plan)))
  {
    var keyed := KeyedRoute(FullKey(RouteEntry(a)));
    assert plan.routes == [a] + [b] && a == plan.routes[0];
    CountAppend([a], [b], keyed);
    FilterOne(a, keyed);
    FilterOne(b, keyed);
    if Validates(plan, Distinct(FullRun(plan))) { RouteMustFit(plan, a); }
  }

  /** With bars they are not: two complete routes with different targets, applied in full, fail validation. */
  lemma BarsCollide() returns (plan: Plan)
    ensures DistinctTargets(plan.routes) && Described(FullRun(plan)) && |plan.routes| == 2
    ensures forall r :: r in plan.routes ==> r.added && Text.Trim(r.table) != "" && Text.Trim(r.destination) != ""
    ensures !Validates(plan, Distinct(FullRun(plan)))
  {
    var a, b := Route("t", "a|b", "", "", true), Route("t|a", "b", "", "", true);
    plan := BLANK.(routes := [a, b]);
    assert RouteTarget(a)[1] == ' ' && RouteTarget(b)[1] == '|';
    assert FullKey(RouteEntry(a)) == "t|a|b||" && FullKey(RouteEntry(b)) == "t|a|b||";
    BarsComplete(a, b);
    FullRunDescribed(plan);
    SameKeyFails(plan, a, b);
  }

  lemma BarsComplete(a: Route, b: Route)
    requires a.table == "t" && a.destination == "a|b" && b.table == "t|a" && b.destination == "b"
    ensures Text.Trim(a.table) != "" && Text.Trim(a.destination) != "" && Text.Trim(b.table) != ""
    ensures Text.Trim(b.destination) != ""
  {
    Text.TrimTrims(a.table);
    Text.TrimTrims(a.destination);
    Text.TrimTrims(b.table);
    Text.TrimTrims(b.destination);
  }
}
