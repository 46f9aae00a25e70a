/**
 The TUN reconciliation supervisor: a deadline and a no-progress budget per network session,
 and the decisions taken under them.
 */
module Supervisor {
  import opened Wrappers
  import opened SortedLists
  import Counting
  import Text

  datatype Proof = Unknown | Proven | Violated

  datatype Mandatory = Mandatory(
    ownership: Proof, coreTun: Proof, composition: Proof, envelope: Proof,
    uplink: Proof, networkManager: Proof, dns: Proof)

  datatype Probe = Probe(group: string, provider: string, success: bool)

  /** One observation of a session; `fingerprint` is the rendered uplink identity. */
  datatype Round = Round(
    session: string,
    fingerprint: string,
    mandatory: Mandatory,
    probes: seq<Probe>,
    hardUnsafe: bool,
    ownershipBlocked: bool,
    needsReconcile: bool
  )

  datatype Kind = Verified | Retry | Reconcile | BlockedOwnership | Terminal

  datatype Classification =
    | Healthy | OwnershipInvalid | NetworkConverging | OwnedStateReconciling
    | ConnectivityFailed | OwnedStateInvalid | RevalidationTimeout

  datatype Decision = Decision(kind: Kind, classification: Classification, session: string)

  /** `key` is the last progress key, absent before the first round of the cycle. */
  datatype Cycle = Cycle(deadline: int, key: Option<string>, stale: nat, exhausted: bool)

  datatype Policy = Policy(budget: int, maxStale: nat)

  type Cycles = map<string, Cycle>

  function States(m: Mandatory): seq<Proof> {
    [m.ownership, m.coreTun, m.composition, m.envelope, m.uplink, m.networkManager, m.dns]
  }

  predicate MandatoryUnknown(r: Round) {
    Unknown in States(r.mandatory)
  }

  predicate MandatoryViolated(r: Round) {
    Violated in States(r.mandatory)
  }

  /** Independent providers, by trimmed name, that reported `success`. */
  function Providers(probes: seq<Probe>, success: bool): set<string> {
    set p | p in probes && p.success == success && Text.Trim(p.provider) != "" :: Text.Trim(p.provider)
  }

  // ---------------------------------------------------------------- progress key

  function ProofDigit(p: Proof): char {
    match p
    case Unknown => '0'
    case Proven => '1'
    case Violated => '2'
  }

  function ProbeText(p: Probe): string {
    Text.Trim(p.provider) + "/" + Text.Trim(p.group) + "=" + if p.success then "true" else "false"
  }

  function ProbeTexts(probes: seq<Probe>): seq<string> {
    seq(|probes|, i requires 0 <= i < |probes| => ProbeText(probes[i]))
  }

  function InsertText(s: seq<string>, x: string): seq<string> {
    if s == [] || !TextLess(s[0], x) then [x] + s else [s[0]] + InsertText(s[1..], x)
  }

  /** sort.Strings. */
  function SortTexts(s: seq<string>): seq<string> {
    if s == [] then [] else InsertText(SortTexts(s[1..]), s[0])
  }

  function ProofText(m: Mandatory): string {
    [ ProofDigit(m.ownership), ',', ProofDigit(m.coreTun), ',', ProofDigit(m.composition), ',',
      ProofDigit(m.envelope), ',', ProofDigit(m.uplink), ',', ProofDigit(m.networkManager), ',', ProofDigit(m.dns)]
  }

  function ProgressKey(r: Round): string {
    "uplink=" + r.fingerprint + ";" + ("mandatory=" + ProofText(r.mandatory) + ";"
    + ("probes=" + Text.Joined(SortTexts(ProbeTexts(r.probes)), ',')))
  }

  // ---------------------------------------------------------------- one round

  /** advanceCycle on one session's cycle. */
  function Advance(policy: Policy, cycle: Option<Cycle>, key: string, now: int, exhaustOnNoProgress: bool): Cycle {
    var c := if cycle.Some? then cycle.value else Cycle(now + policy.budget, None, 0, false);
    if c.exhausted then c
    else
      var stale := if c.key.None? then c.stale else if c.key.value == key then c.stale + 1 else 0;
      Cycle(c.deadline, Some(key), stale, now >= c.deadline || (exhaustOnNoProgress && stale >= policy.maxStale))
  }

  function CycleOf(cycles: Cycles, session: string): Option<Cycle> {
    if session in cycles then Some(cycles[session]) else None
  }

  function Cleared(cycles: Cycles, session: string): Cycles {
    if Text.Trim(session) == "" then cycles else cycles - {session}
  }

  function TerminalClassification(r: Round): Classification {
    if r.mandatory.ownership.Violated? || r.ownershipBlocked then OwnershipInvalid
    else if MandatoryViolated(r) || r.hardUnsafe then OwnedStateInvalid
    else ConnectivityFailed
  }

  /** A bounded decision: what to do while the cycle lasts and what once it is exhausted. */
  function Bounded(
      policy: Policy, cycles: Cycles, session: string, key: string, now: int, eligible: bool,
      going: Decision, spent: Decision)
    : (Cycles, Decision)
  {
    var c := Advance(policy, CycleOf(cycles, session), key, now, eligible);
    var advanced := cycles[session := c];
    if !c.exhausted then (advanced, going)
    else if eligible then (Cleared(advanced, session), spent)
    else (advanced, spent)
  }

  function Step(policy: Policy, cycles: Cycles, r: Round, now: int): (Cycles, Decision) {
    StepOn(policy, cycles, r, ProgressKey(r), now)
  }

  /** A round whose evidence has this progress key. */
  function StepOn(policy: Policy, cycles: Cycles, r: Round, key: string, now: int): (Cycles, Decision) {
    var terminal := Decision(Terminal, TerminalClassification(r), r.session);
    if Text.Trim(r.session) == "" || r.ownershipBlocked || r.mandatory.ownership.Violated? then
      (Cleared(cycles, r.session), Decision(BlockedOwnership, OwnershipInvalid, r.session))
    else if r.hardUnsafe then (Cleared(cycles, r.session), terminal)
    else if MandatoryUnknown(r) then
      Bounded(policy, cycles, r.session, key, now, false, Decision(Retry, NetworkConverging, r.session),
              Decision(BlockedOwnership, RevalidationTimeout, r.session))
    else if r.needsReconcile || MandatoryViolated(r) then
      Bounded(policy, cycles, r.session, key, now, true,
              Decision(Reconcile, OwnedStateReconciling, r.session), terminal)
    else if |Providers(r.probes, true)| >= 2 then (Cleared(cycles, r.session), Decision(Verified, Healthy, r.session))
    else
      var eligible := |Providers(r.probes, false)| >= 2;
      Bounded(policy, cycles, r.session, key, now, eligible, Decision(Retry, ConnectivityFailed, r.session),
              if eligible then terminal else Decision(BlockedOwnership, RevalidationTimeout, r.session))
  }

  // ---------------------------------------------------------------- what a round decides, and when

  /** The session cannot be named or is not ours to act on. */
  predicate NotOurs(r: Round) {
    Text.Trim(r.session) == "" || r.ownershipBlocked || r.mandatory.ownership == Violated
  }

  predicate Holds(m: Mandatory, p: Proof) {
    || m.ownership == p || m.coreTun == p || m.composition == p || m.envelope == p
    || m.uplink == p || m.networkManager == p || m.dns == p
  }

  predicate AllProven(m: Mandatory) {
    && m.ownership == Proven && m.coreTun == Proven && m.composition == Proven && m.envelope == Proven
    && m.uplink == Proven && m.networkManager == Proven && m.dns == Proven
  }

  /** Two probes of different named providers reported `success`. */
  ghost predicate TwoAgree(probes: seq<Probe>, success: bool) {
    exists i, j :: 0 <= i < |probes| && 0 <= j < |probes|
      && probes[i].success == success && probes[j].success == success
      && Text.Trim(probes[i].provider) != "" && Text.Trim(probes[j].provider) != ""
      && Text.Trim(probes[i].provider) != Text.Trim(probes[j].provider)
  }

  /** How many rounds in a row, this one not counted, brought the evidence `key` stands for. */
  function Repeats(c: Option<Cycle>, key: string): nat {
    if c.None? then 0
    else if c.value.key == None then c.value.stale
    else if c.value.key == Some(key) then c.value.stale + 1 else 0
  }

  /** The session's budget is used up: once for all, by time, or by rounds without progress where those count. */
  predicate UsedUp(policy: Policy, c: Option<Cycle>, key: string, now: int, counted: bool) {
    || (c.Some? && c.value.exhausted)
    || (if c.Some? then c.value.deadline else now + policy.budget) <= now
    || (counted && policy.maxStale <= Repeats(c, key))
  }

  /** What the evidence of a session that is ours calls for. */
  datatype Evidence = Unsafe | Incomplete | Broken | Fine | Failing | Inconclusive

  ghost function EvidenceOf(r: Round): Evidence {
    if r.hardUnsafe then Unsafe
    else if Holds(r.mandatory, Unknown) then Incomplete
    else if r.needsReconcile || Holds(r.mandatory, Violated) then Broken
    else if TwoAgree(r.probes, true) then Fine
    else if TwoAgree(r.probes, false) then Failing
    else Inconclusive
  }

  /**
   When a round is decided how, in terms of the round, the time and the session's stored cycle: five
   conditions that exclude each other and leave nothing out.
   */
  ghost predicate Decides(policy: Policy, c: Option<Cycle>, r: Round, key: string, now: int, d: Decision) {
    var ours, e := !NotOurs(r), EvidenceOf(r);
    var spent, stuck := UsedUp(policy, c, key, now, false), UsedUp(policy, c, key, now, true);
    && d.session == r.session
    && (d.kind.Verified? <==>
          ours && !r.hardUnsafe && AllProven(r.mandatory) && !r.needsReconcile && TwoAgree(r.probes, true))
    && (d.kind.Reconcile? <==> ours && e.Broken? && !stuck)
    && (d.kind.Retry? <==> ours && ((e.Incomplete? && !spent) || (e.Inconclusive? && !spent) || (e.Failing? && !stuck)))
    && (d.kind.Terminal? <==> ours && (e.Unsafe? || ((e.Broken? || e.Failing?) && stuck)))
    && (d.kind.BlockedOwnership? <==> !ours || ((e.Incomplete? || e.Inconclusive?) && spent))
    && d.classification == (
         match d.kind
         case Verified => Healthy
         case Reconcile => OwnedStateReconciling
         case Retry => if e.Incomplete? then NetworkConverging else ConnectivityFailed
         case Terminal => if r.hardUnsafe || Holds(r.mandatory, Violated) then OwnedStateInvalid else ConnectivityFailed
         case BlockedOwnership => if ours then RevalidationTimeout else OwnershipInvalid)
  }

  /**
   What becomes of the cycle: forgotten with the session's end, its success or its disqualification,
   and otherwise opened or continued, with its deadline fixed, until it is exhausted for good.
   */
  ghost predicate Keeps(
      policy: Policy, c: Option<Cycle>, r: Round, key: string, now: int, d: Decision, after: Option<Cycle>)
  {
    var counted := EvidenceOf(r).Broken? || EvidenceOf(r).Failing?;
    if Text.Trim(r.session) == "" then after == c
    else if d.kind.Verified? || d.kind.Terminal? || NotOurs(r) then after == None
    else if c.Some? && c.value.exhausted then after == c
    else after == Some(Cycle(if c.Some? then c.value.deadline else now + policy.budget, Some(key),
                             Repeats(c, key), UsedUp(policy, c, key, now, counted)))
  }

  /** Counting independent providers finds two of them exactly when two probes of different providers agree. */
  lemma TwoProviders(probes: seq<Probe>, success: bool)
    ensures |Providers(probes, success)| >= 2 <==> TwoAgree(probes, success)
  {
    var s := Providers(probes, success);
    if |s| >= 2 {
      var x :| x in s;
      assert |s - {x}| == |s| - 1;
      var y :| y in s - {x};
      var i :| 0 <= i < |probes| && probes[i].success == success && Text.Trim(probes[i].provider) == x;
      var j :| 0 <= j < |probes| && probes[j].success == success && Text.Trim(probes[j].provider) == y;
    }
    if TwoAgree(probes, success) {
      var i, j :| 0 <= i < |probes| && 0 <= j < |probes|
        && probes[i].success == success && probes[j].success == success
        && Text.Trim(probes[i].provider) != "" && Text.Trim(probes[j].provider) != ""
        && Text.Trim(probes[i].provider) != Text.Trim(probes[j].provider);
      TwoInside(Text.Trim(probes[i].provider), Text.Trim(probes[j].provider), s);
    }
  }

  lemma TwoInside(x: string, y: string, s: set<string>)
    requires x in s && y in s && x != y
    ensures |s| >= 2
  {
    assert |s - {x}| == |s| - 1 && y in s - {x};
  }

  lemma MandatoryReads(r: Round)
    ensures MandatoryUnknown(r) <==> Holds(r.mandatory, Unknown)
    ensures MandatoryViolated(r) <==> Holds(r.mandatory, Violated)
    ensures AllProven(r.mandatory) <==> !MandatoryUnknown(r) && !MandatoryViolated(r)
  {
    var m, s := r.mandatory, States(r.mandatory);
    assert s[0] == m.ownership && s[1] == m.coreTun && s[2] == m.composition && s[3] == m.envelope;
    assert s[4] == m.uplink && s[5] == m.networkManager && s[6] == m.dns;
  }

  lemma BoundedEnds(policy: Policy, c: Option<Cycle>, key: string, now: int, counted: bool)
    ensures var a := Advance(policy, c, key, now, counted);
      && a.exhausted == UsedUp(policy, c, key, now, counted)
      && (if c.Some? && c.value.exhausted then a == c.value
          else a == Cycle(if c.Some? then c.value.deadline else now + policy.budget, Some(key),
                          Repeats(c, key), a.exhausted))
  {
  }

  lemma StepDecides(policy: Policy, cycles: Cycles, r: Round, key: string, now: int)
    ensures Decides(policy, CycleOf(cycles, r.session), r, key, now, StepOn(policy, cycles, r, key, now).1)
  {
    MandatoryReads(r);
    TwoProviders(r.probes, true);
    TwoProviders(r.probes, false);
    BoundedEnds(policy, CycleOf(cycles, r.session), key, now, false);
    BoundedEnds(policy, CycleOf(cycles, r.session), key, now, true);
  }

  lemma StepKeeps(policy: Policy, cycles: Cycles, r: Round, key: string, now: int)
    ensures Keeps(policy, CycleOf(cycles, r.session), r, key, now, StepOn(policy, cycles, r, key, now).1,
                  CycleOf(StepOn(policy, cycles, r, key, now).0, r.session))
  {
    MandatoryReads(r);
    TwoProviders(r.probes, true);
    TwoProviders(r.probes, false);
    BoundedEnds(policy, CycleOf(cycles, r.session), key, now, false);
    BoundedEnds(policy, CycleOf(cycles, r.session), key, now, true);
  }

  // ---------------------------------------------------------------- the supervisor object

  class TunReconciliationSupervisor {
    const policy: Policy
    var cycles: Cycles

    constructor (budget: int, maxStale: int)
      ensures cycles == map[]
      ensures policy.budget == (if budget <= 0 then 45_000 else budget)
      ensures policy.maxStale == (if maxStale <= 0 then 3 else maxStale)
    {
      policy := Policy(if budget <= 0 then 45_000 else budget, if maxStale <= 0 then 3 else maxStale);
      cycles := map[];
    }

    method ClearCycle(session: string)
      modifies this
      ensures cycles == Cleared(old(cycles), session)
    {
      if Text.Trim(session) == "" { return; }
      cycles := cycles - {session};
    }

    method AdvanceCycle(r: Round, now: int, exhaustOnNoProgress: bool) returns (exhausted: bool)
      modifies this
      ensures var next := Advance(policy, CycleOf(old(cycles), r.session), ProgressKey(r), now, exhaustOnNoProgress);
        cycles == old(cycles)[r.session := next]
      ensures exhausted == cycles[r.session].exhausted
    {
      if r.session !in cycles {
        cycles := cycles[r.session := Cycle(now + policy.budget, None, 0, false)];
      }
      var cycle := cycles[r.session];
      if cycle.exhausted { return true; }
      var key := ProgressKey(r);
      var stale := cycle.stale;
      if cycle.key.Some? {
        stale := if cycle.key.value == key then stale + 1 else 0;
      }
      exhausted := now >= cycle.deadline || (exhaustOnNoProgress && stale >= policy.maxStale);
      cycles := cycles[r.session := Cycle(cycle.deadline, Some(key), stale, exhausted)];
    }

    method RetryOrBoundedTerminal(r: Round, now: int, classification: Classification, eligible: bool)
      returns (d: Decision)
      modifies this
      ensures (cycles, d) == Bounded(
        policy, old(cycles), r.session, ProgressKey(r), now, eligible, Decision(Retry, classification, r.session),
        if eligible then Decision(Terminal, TerminalClassification(r), r.session)
        else Decision(BlockedOwnership, RevalidationTimeout, r.session))
    {
      var exhausted := AdvanceCycle(r, now, eligible);
      if !exhausted { return Decision(Retry, classification, r.session); }
      if !eligible { return Decision(BlockedOwnership, RevalidationTimeout, r.session); }
      ClearCycle(r.session);
      return Decision(Terminal, TerminalClassification(r), r.session);
    }

    /** One round: its decision, the fate of its session's cycle, and nothing else. */
    method RunRound(r: Round, now: int) returns (d: Decision)
      modifies this
      ensures Decides(policy, CycleOf(old(cycles), r.session), r, ProgressKey(r), now, d)
      ensures Keeps(policy, CycleOf(old(cycles), r.session), r, ProgressKey(r), now, d, CycleOf(cycles, r.session))
      ensures forall other :: other != r.session ==> CycleOf(cycles, other) == CycleOf(old(cycles), other)
      ensures (cycles, d) == Step(policy, old(cycles), r, now)
    {
      d := Decide(r, now);
      StepDecides(policy, old(cycles), r, ProgressKey(r), now);
      StepKeeps(policy, old(cycles), r, ProgressKey(r), now);
      forall other | other != r.session ensures CycleOf(cycles, other) == CycleOf(old(cycles), other) {
        StepLocal(policy, old(cycles), r, ProgressKey(r), now, other);
      }
    }

    method Decide(r: Round, now: int) returns (d: Decision)
      modifies this
      ensures (cycles, d) == Step(policy, old(cycles), r, now)
    {
      if Text.Trim(r.session) == "" || r.ownershipBlocked || r.mandatory.ownership.Violated? {
        ClearCycle(r.session);
        return Decision(BlockedOwnership, OwnershipInvalid, r.session);
      }
      if r.hardUnsafe {
        ClearCycle(r.session);
        return Decision(Terminal, TerminalClassification(r), r.session);
      }
      if MandatoryUnknown(r) {
        d := RetryOrBoundedTerminal(r, now, NetworkConverging, false);
        return;
      }
      if r.needsReconcile || MandatoryViolated(r) {
        var exhausted := AdvanceCycle(r, now, true);
        if !exhausted { return Decision(Reconcile, OwnedStateReconciling, r.session); }
        ClearCycle(r.session);
        return Decision(Terminal, TerminalClassification(r), r.session);
      }
      if |Providers(r.probes, true)| >= 2 {
        ClearCycle(r.session);
        return Decision(Verified, Healthy, r.session);
      }
      d := RetryOrBoundedTerminal(r, now, ConnectivityFailed, |Providers(r.probes, false)| >= 2);
    }
  }

  // ---------------------------------------------------------------- runs

  /** A round observed at a time. */
  datatype Event = Event(round: Round, now: int)

  /** Event `k` took the cycles from one state to the next and gave this decision. */
  ghost predicate Took(policy: Policy, events: seq<Event>, states: seq<Cycles>, decisions: seq<Decision>, k: nat)
    requires k < |events| && |states| == |events| + 1 && |decisions| == |events|
  {
    (states[k + 1], decisions[k]) == Step(policy, states[k], events[k].round, events[k].now)
  }

  /** The cycles before each event, and the decision taken at it. */
  ghost predicate IsRun(policy: Policy, events: seq<Event>, states: seq<Cycles>, decisions: seq<Decision>) {
    && |states| == |events| + 1 && |decisions| == |events|
    && forall k: nat :: k < |events| ==> Took(policy, events, states, decisions, k)
  }

  /** A decision that keeps a session going under its budget. */
  predicate Going(d: Decision) {
    d.kind.Retry? || d.kind.Reconcile?
  }

  predicate Mutates(d: Decision) {
    d.kind.Reconcile? || d.kind.Terminal?
  }

  /** Sessions do not touch each other. */
  lemma StepLocal(policy: Policy, cycles: Cycles, r: Round, key: string, now: int, other: string)
    requires other != r.session
    ensures CycleOf(StepOn(policy, cycles, r, key, now).0, other) == CycleOf(cycles, other)
  {
  }

  /** A step on one session depends on that session's cycle alone. */
  lemma StepDepends(policy: Policy, cycles: Cycles, cycles': Cycles, r: Round, key: string, now: int)
    requires CycleOf(cycles, r.session) == CycleOf(cycles', r.session)
    ensures StepOn(policy, cycles, r, key, now).1 == StepOn(policy, cycles', r, key, now).1
    ensures Text.Trim(r.session) != "" ==>
      CycleOf(StepOn(policy, cycles, r, key, now).0, r.session)
      == CycleOf(StepOn(policy, cycles', r, key, now).0, r.session)
  {
  }

  /** What one step does to its session's cycle. */
  lemma StepCycle(policy: Policy, cycles: Cycles, r: Round, key: string, now: int)
    requires policy.budget > 0
    ensures var next := StepOn(policy, cycles, r, key, now);
      var c, d := CycleOf(next.0, r.session), next.1;
      && (Going(d) ==> c.Some? && !c.value.exhausted && now < c.value.deadline && c.value.key == Some(key))
      && (c.Some? && r.session in cycles && Text.Trim(r.session) != "" ==>
            c.value.deadline == cycles[r.session].deadline)
      && (c.Some? && r.session !in cycles ==> c.value.deadline == now + policy.budget)
  {
  }

  /** The cycle of `session` lives from before event `i` through event `j`. */
  ghost predicate Lives(states: seq<Cycles>, session: string, i: nat, j: nat)
    requires j < |states|
  {
    forall k :: i < k <= j ==> session in states[k]
  }

  /** A cycle that is there after an event is the one that was there before, or was opened by that event. */
  lemma DeadlineStep(
      policy: Policy, events: seq<Event>, states: seq<Cycles>, decisions: seq<Decision>, session: string, j: nat)
    requires IsRun(policy, events, states, decisions) && policy.budget > 0 && Text.Trim(session) != ""
    requires j < |events| && session in states[j + 1]
    ensures states[j + 1][session].deadline
      == if session in states[j] then states[j][session].deadline else events[j].now + policy.budget
  {
    var e := events[j];
    assert Took(policy, events, states, decisions, j);
    StepCycle(policy, states[j], e.round, ProgressKey(e.round), e.now);
    if e.round.session != session { StepLocal(policy, states[j], e.round, ProgressKey(e.round), e.now, session); }
  }

  lemma {:induction false} DeadlineFixed(
      policy: Policy, events: seq<Event>, states: seq<Cycles>, decisions: seq<Decision>,
      session: string, i: nat, j: nat)
    requires IsRun(policy, events, states, decisions) && policy.budget > 0 && Text.Trim(session) != ""
    requires i < j <= |events| && session !in states[i] && Lives(states, session, i, j)
    ensures session in states[j] && states[j][session].deadline == events[i].now + policy.budget
    decreases j
  {
    DeadlineStep(policy, events, states, decisions, session, j - 1);
    if j > i + 1 { DeadlineFixed(policy, events, states, decisions, session, i, j - 1); }
  }

  /** Every cycle was opened by a round that found none. */
  lemma {:induction false} CycleOpened(
      policy: Policy, events: seq<Event>, states: seq<Cycles>, decisions: seq<Decision>, session: string, j: nat)
    returns (i: nat)
    requires IsRun(policy, events, states, decisions) && states[0] == map[] && j <= |events| && session in states[j]
    ensures i < j && session !in states[i] && Lives(states, session, i, j)
    decreases j
  {
    if session in states[j - 1] {
      i := CycleOpened(policy, events, states, decisions, session, j - 1);
    } else {
      i := j - 1;
    }
  }

  /**
   Every retry or reconcile falls strictly before the deadline of its cycle: within the budget of
   the round that opened the cycle, however many rounds of however many sessions lie between.
   */
  lemma GoingBeforeDeadline(
      policy: Policy, events: seq<Event>, states: seq<Cycles>, decisions: seq<Decision>, j: nat)
    returns (i: nat)
    requires IsRun(policy, events, states, decisions) && states[0] == map[] && policy.budget > 0
    requires j < |events| && Going(decisions[j])
    ensures i <= j && events[j].round.session !in states[i] && Lives(states, events[j].round.session, i, j + 1)
    ensures events[j].now < events[i].now + policy.budget
  {
    var e := events[j];
    assert Took(policy, events, states, decisions, j);
    StepCycle(policy, states[j], e.round, ProgressKey(e.round), e.now);
    i := CycleOpened(policy, events, states, decisions, e.round.session, j + 1);
    DeadlineFixed(policy, events, states, decisions, e.round.session, i, j + 1);
  }

  // ---------------------------------------------------------------- the no-progress budget

  /** Event `k` reconciled `session` on progress key `key`. */
  predicate ReconciledOn(e: Event, d: Decision, session: string, key: string) {
    d.kind.Reconcile? && e.round.session == session && ProgressKey(e.round) == key
  }

  /** `at` lists consecutive rounds of `session` that all reconciled on the same progress key. */
  ghost predicate Stuck(events: seq<Event>, decisions: seq<Decision>, at: seq<nat>, session: string, key: string)
    requires |events| == |decisions|
  {
    && (forall m :: 0 <= m < |at| ==> at[m] < |events| && ReconciledOn(events[at[m]], decisions[at[m]], session, key))
    && (forall m, n :: 0 <= m < n < |at| ==> at[m] < at[n])
    && (forall m, n, k :: 0 <= m && n == m + 1 < |at| && at[m] < k < at[n] ==> events[k].round.session != session)
  }

  lemma {:induction false} CycleUntouched(
      policy: Policy, events: seq<Event>, states: seq<Cycles>, decisions: seq<Decision>,
      session: string, i: nat, j: nat)
    requires IsRun(policy, events, states, decisions) && i <= j <= |events|
    requires forall k :: i <= k < j ==> events[k].round.session != session
    ensures CycleOf(states[j], session) == CycleOf(states[i], session)
    decreases j
  {
    if i < j {
      CycleUntouched(policy, events, states, decisions, session, i, j - 1);
      var e := events[j - 1];
      assert Took(policy, events, states, decisions, j - 1);
      StepLocal(policy, states[j - 1], e.round, ProgressKey(e.round), e.now, session);
    }
  }

  lemma ReconcileCounts(policy: Policy, cycles: Cycles, r: Round, key: string, now: int)
    requires StepOn(policy, cycles, r, key, now).1.kind.Reconcile?
    ensures var c := CycleOf(StepOn(policy, cycles, r, key, now).0, r.session);
      && c.Some? && c.value.key == Some(key) && c.value.stale < policy.maxStale
      && (r.session in cycles && cycles[r.session].key == Some(key) ==>
            c.value.stale == cycles[r.session].stale + 1)
  {
  }

  lemma StuckPrefix(events: seq<Event>, decisions: seq<Decision>, at: seq<nat>, session: string, key: string)
    requires |events| == |decisions| && |at| > 1 && Stuck(events, decisions, at, session, key)
    ensures var init, before, last := at[..|at| - 1], at[|at| - 2], at[|at| - 1];
      && Stuck(events, decisions, init, session, key) && init[|init| - 1] == before && before < last
      && forall k :: before < k < last ==> events[k].round.session != session
  {
    var init := at[..|at| - 1];
    assert forall m :: 0 <= m < |init| ==> init[m] == at[m];
  }

  lemma {:induction false} StuckCounts(
      policy: Policy, events: seq<Event>, states: seq<Cycles>, decisions: seq<Decision>,
      at: seq<nat>, session: string, key: string)
    requires IsRun(policy, events, states, decisions) && at != [] && Stuck(events, decisions, at, session, key)
    ensures var c := CycleOf(states[at[|at| - 1] + 1], session);
      c.Some? && c.value.key == Some(key) && |at| - 1 <= c.value.stale < policy.maxStale
    decreases |at|
  {
    var last := at[|at| - 1];
    var e := events[last];
    assert ReconciledOn(e, decisions[last], session, key);
    assert Took(policy, events, states, decisions, last);
    ReconcileCounts(policy, states[last], e.round, ProgressKey(e.round), e.now);
    if |at| > 1 {
      var init := at[..|at| - 1];
      var before := at[|at| - 2];
      StuckPrefix(events, decisions, at, session, key);
      StuckCounts(policy, events, states, decisions, init, session, key);
      CycleUntouched(policy, events, states, decisions, session, before + 1, last);
    }
  }

  /** At most the budgeted number of consecutive reconciles of a session share one progress key. */
  lemma NoProgressBounded(policy: Policy, events: seq<Event>, states: seq<Cycles>, decisions: seq<Decision>,
                          at: seq<nat>, session: string, key: string)
    requires IsRun(policy, events, states, decisions) && Stuck(events, decisions, at, session, key)
    ensures |at| <= policy.maxStale
  {
    if at != [] { StuckCounts(policy, events, states, decisions, at, session, key); }
  }

  // ---------------------------------------------------------------- exhaustion and evidence

  /**
   An exhausted cycle stays exactly as it is until it is cleared, and meanwhile the session is never
   kept going: incomplete evidence blocks, conclusive evidence ends it.
   */
  lemma ExhaustedStays(policy: Policy, cycles: Cycles, r: Round, key: string, now: int, session: string)
    requires session in cycles && cycles[session].exhausted
    ensures var next, d := StepOn(policy, cycles, r, key, now).0, StepOn(policy, cycles, r, key, now).1;
      && (session in next ==> next[session] == cycles[session])
      && (r.session == session ==> !Going(d))
      && (r.session == session && session !in next ==>
            d.kind.Verified? || d.kind.Terminal? || d.classification.OwnershipInvalid?)
  {
  }

  lemma {:induction false} ExhaustedKept(
      policy: Policy, events: seq<Event>, states: seq<Cycles>, decisions: seq<Decision>,
      session: string, i: nat, j: nat)
    requires IsRun(policy, events, states, decisions) && i <= j <= |events|
    requires session in states[i] && states[i][session].exhausted && Lives(states, session, i, j)
    ensures session in states[j] && states[j][session] == states[i][session]
    decreases j
  {
    if i < j {
      ExhaustedKept(policy, events, states, decisions, session, i, j - 1);
      var e := events[j - 1];
      assert Took(policy, events, states, decisions, j - 1);
      ExhaustedStays(policy, states[j - 1], e.round, ProgressKey(e.round), e.now, session);
    }
  }

  /** Over a run: while an exhausted cycle is not cleared, its session is never kept going. */
  lemma ExhaustedUntilCleared(
      policy: Policy, events: seq<Event>, states: seq<Cycles>, decisions: seq<Decision>, i: nat, j: nat)
    requires IsRun(policy, events, states, decisions) && i <= j < |events|
    requires var session := events[j].round.session;
      session in states[i] && states[i][session].exhausted && Lives(states, session, i, j)
    ensures !Going(decisions[j])
  {
    var e := events[j];
    ExhaustedKept(policy, events, states, decisions, e.round.session, i, j);
    assert Took(policy, events, states, decisions, j);
    ExhaustedStays(policy, states[j], e.round, ProgressKey(e.round), e.now, e.round.session);
  }

  /** Exactly when a round authorizes a mutation; incomplete evidence never does without HardUnsafe. */
  lemma MutationNeedsEvidence(policy: Policy, cycles: Cycles, r: Round, key: string, now: int)
    requires Mutates(StepOn(policy, cycles, r, key, now).1)
    ensures Text.Trim(r.session) != "" && !r.ownershipBlocked && !r.mandatory.ownership.Violated?
    ensures r.hardUnsafe || (!MandatoryUnknown(r)
      && (r.needsReconcile || MandatoryViolated(r)
          || (|Providers(r.probes, false)| >= 2 && |Providers(r.probes, true)| < 2)))
  {
  }

  // ---------------------------------------------------------------- non-interference

  predicate IsOf(e: Event, session: string) {
    e.round.session == session
  }

  /** The rounds of one session. */
  function Own(events: seq<Event>, session: string): seq<Event> {
    Counting.Filter(events, (e: Event) => IsOf(e, session))
  }

  lemma OwnLast(events: seq<Event>, session: string)
    requires events != []
    ensures var e := events[|events| - 1];
      Own(events, session) == Own(events[..|events| - 1], session) + (if e.round.session == session then [e] else [])
  {
  }

  /** The decisions a run gives one session. */
  function DecisionsOf(policy: Policy, events: seq<Event>, session: string): seq<Decision> {
    if events == [] then []
    else
      var e, before := events[|events| - 1], events[..|events| - 1];
      var rest := DecisionsOf(policy, before, session);
      if e.round.session == session then rest + [Step(policy, After(policy, before), e.round, e.now).1] else rest
  }

  function After(policy: Policy, events: seq<Event>): Cycles {
    if events == [] then map[]
    else Step(policy, After(policy, events[..|events| - 1]), events[|events| - 1].round, events[|events| - 1].now).0
  }

  /** A session is treated as if it were alone: its decisions are those of the run of its own rounds. */
  lemma {:induction false} NonInterference(policy: Policy, events: seq<Event>, session: string)
    ensures DecisionsOf(policy, events, session) == DecisionsOf(policy, Own(events, session), session)
    ensures CycleOf(After(policy, events), session) == CycleOf(After(policy, Own(events, session)), session)
  {
    if events != [] {
      var e, before := events[|events| - 1], events[..|events| - 1];
      NonInterference(policy, before, session);
      OwnLast(events, session);
      var alone := Own(before, session);
      if e.round.session == session {
        assert (alone + [e])[..|alone|] == alone;
        StepDepends(policy, After(policy, before), After(policy, alone), e.round, ProgressKey(e.round), e.now);
        if Text.Trim(session) == "" { BlankSession(policy, before, session); BlankSession(policy, alone, session); }
      } else {
        assert alone + [] == alone;
        StepLocal(policy, After(policy, before), e.round, ProgressKey(e.round), e.now, session);
      }
    }
  }

  lemma {:induction false} BlankSession(policy: Policy, events: seq<Event>, session: string)
    requires Text.Trim(session) == ""
    ensures session !in After(policy, events)
  {
    if events != [] {
      var e, before := events[|events| - 1], events[..|events| - 1];
      BlankSession(policy, before, session);
      if e.round.session != session {
        StepLocal(policy, After(policy, before), e.round, ProgressKey(e.round), e.now, session);
      }
    }
  }

  // ---------------------------------------------------------------- the key ignores probe order

  predicate Ascending(s: seq<string>) {
    forall i, j :: 0 <= i < j < |s| ==> !TextLess(s[j], s[i])
  }

  lemma {:induction false} InsertTextContents(s: seq<string>, x: string)
    ensures multiset(InsertText(s, x)) == multiset(s) + multiset{x}
  {
    if s != [] && TextLess(s[0], x) { InsertTextContents(s[1..], x); }
    if s != [] { assert s == [s[0]] + s[1..]; }
  }

  /** Something no larger than everything in an ascending list may stand before it. */
  lemma AscendingFrom(x: string, s: seq<string>)
    requires Ascending(s) && forall y :: y in s ==> !TextLess(y, x)
    ensures Ascending([x] + s)
  {
    assert forall j :: 0 <= j < |s| ==> s[j] in s;
  }

  lemma {:induction false} InsertTextKeeps(s: seq<string>, x: string)
    requires Ascending(s)
    ensures Ascending(InsertText(s, x)) && multiset(InsertText(s, x)) == multiset(s) + multiset{x}
  {
    InsertTextContents(s, x);
    TextOrder();
    if s == [] || !TextLess(s[0], x) {
      forall y | y in s ensures !TextLess(y, x) { HeadLeast(s, y); }
      AscendingFrom(x, s);
    } else {
      InsertTextKeeps(s[1..], x);
      var rest := InsertText(s[1..], x);
      forall y | y in rest ensures !TextLess(y, s[0]) {
        assert y in multiset(rest);
        if y != x { HeadLeast(s, y) by { assert y in s[1..]; } }
      }
      AscendingFrom(s[0], rest);
    }
  }

  lemma {:induction false} SortTextsSorts(s: seq<string>)
    ensures Ascending(SortTexts(s)) && multiset(SortTexts(s)) == multiset(s)
  {
    if s != [] {
      SortTextsSorts(s[1..]);
      InsertTextKeeps(SortTexts(s[1..]), s[0]);
      TailContents(s);
      assert s[0] in multiset(s);
    }
  }

  lemma TailContents(s: seq<string>)
    requires s != []
    ensures multiset(s[1..]) == multiset(s) - multiset{s[0]}
  {
    assert s == [s[0]] + s[1..];
  }

  /** The head of an ascending list is no larger than anything in it. */
  lemma HeadLeast(s: seq<string>, x: string)
    requires Ascending(s) && s != [] && x in multiset(s)
    ensures x == s[0] || TextLess(s[0], x)
  {
    TextOrder();
  }

  lemma SameHead(s: seq<string>, t: seq<string>)
    requires Ascending(s) && Ascending(t) && s != [] && t != [] && s[0] in multiset(t) && t[0] in multiset(s)
    ensures s[0] == t[0]
  {
    HeadLeast(s, t[0]);
    HeadLeast(t, s[0]);
    TextOrder();
  }

  /** An ascending list is determined by its contents. */
  lemma {:induction false} AscendingUnique(s: seq<string>, t: seq<string>)
    requires Ascending(s) && Ascending(t) && multiset(s) == multiset(t)
    ensures s == t
  {
    assert |s| == |multiset(s)| && |t| == |multiset(t)|;
    if s != [] {
      assert s[0] in multiset(s) && t[0] in multiset(t);
      SameHead(s, t);
      TailContents(s);
      TailContents(t);
      AscendingUnique(s[1..], t[1..]);
      assert s == [s[0]] + s[1..] && t == [t[0]] + t[1..];
    }
  }

  /** Probes reported in another order are no progress. */
  lemma KeyIgnoresProbeOrder(r: Round, probes: seq<Probe>)
    requires multiset(ProbeTexts(probes)) == multiset(ProbeTexts(r.probes))
    ensures ProgressKey(r.(probes := probes)) == ProgressKey(r)
  {
    SortTextsSorts(ProbeTexts(probes));
    SortTextsSorts(ProbeTexts(r.probes));
    AscendingUnique(SortTexts(ProbeTexts(probes)), SortTexts(ProbeTexts(r.probes)));
  }

  // ---------------------------------------------------------------- the key tells evidence apart

  /** Names as probes report them: nothing in them is a separator of the key. */
  predicate PlainName(name: string) {
    '/' !in name && '=' !in name && ',' !in name && ';' !in name
  }

  /** A plain probe is read back from its text, up to spaces around its names. */
  lemma ProbeTextTells(p: Probe, q: Probe)
    requires PlainName(Text.Trim(p.provider)) && PlainName(Text.Trim(p.group))
    requires PlainName(Text.Trim(q.provider)) && PlainName(Text.Trim(q.group))
    ensures ProbeText(p) == ProbeText(q) <==>
      && Text.Trim(p.provider) == Text.Trim(q.provider) && Text.Trim(p.group) == Text.Trim(q.group)
      && p.success == q.success
  {
    var x, y := if p.success then "true" else "false", if q.success then "true" else "false";
    assert ProbeText(p) == Text.Trim(p.provider) + "/" + (Text.Trim(p.group) + "=" + x);
    assert ProbeText(q) == Text.Trim(q.provider) + "/" + (Text.Trim(q.group) + "=" + y);
    PartsTell(Text.Trim(p.provider), Text.Trim(p.group), x, Text.Trim(q.provider), Text.Trim(q.group), y);
    assert "true"[0] != "false"[0];
  }

  lemma ProbeTextPlain(p: Probe)
    requires PlainName(Text.Trim(p.provider)) && PlainName(Text.Trim(p.group))
    ensures ',' !in ProbeText(p) && ';' !in ProbeText(p) && ProbeText(p) != ""
  {
    var a, g, x := Text.Trim(p.provider), Text.Trim(p.group), if p.success then "true" else "false";
    assert ProbeText(p) == a + "/" + g + "=" + x;
    assert ',' !in "/" && ',' !in "=" && ',' !in x && ';' !in "/" && ';' !in "=" && ';' !in x;
  }

  lemma PartsTell(a: string, g: string, x: string, b: string, h: string, y: string)
    requires PlainName(a) && PlainName(g) && PlainName(b) && PlainName(h)
    ensures a + "/" + (g + "=" + x) == b + "/" + (h + "=" + y) <==> a == b && g == h && x == y
  {
    if a + "/" + (g + "=" + x) == b + "/" + (h + "=" + y) {
      Text.CutAt(a, g + "=" + x, b, h + "=" + y, '/');
      Text.CutAt(g, x, h, y, '=');
    }
  }

  lemma ProofTextTells(m: Mandatory, n: Mandatory)
    ensures ProofText(m) == ProofText(n) <==> m == n
    ensures ';' !in ProofText(m)
  {
    var s, t := ProofText(m), ProofText(n);
    if s == t {
      assert s[0] == t[0] && s[2] == t[2] && s[4] == t[4] && s[6] == t[6];
      assert s[8] == t[8] && s[10] == t[10] && s[12] == t[12];
    }
  }

  lemma ListTells(s: seq<string>, t: seq<string>)
    requires forall x :: x in s || x in t ==> ',' !in x && x != ""
    ensures Text.Joined(s, ',') == Text.Joined(t, ',') <==> s == t
  {
    if s != [] { Text.JoinedSplits(s, ','); }
    if t != [] { Text.JoinedSplits(t, ','); }
    JoinedNonempty(s);
    JoinedNonempty(t);
  }

  lemma JoinedNonempty(s: seq<string>)
    requires forall x :: x in s ==> x != ""
    ensures s != [] ==> Text.Joined(s, ',') != ""
  {
    if s != [] { assert s[0] in s; }
  }

  predicate PlainRound(r: Round) {
    forall p :: p in r.probes ==> PlainName(Text.Trim(p.provider)) && PlainName(Text.Trim(p.group))
  }

  /**
   No progress means no change: two rounds have the same key exactly if they report the same uplink,
   the same proofs and the same probes, in whatever order.
   */
  lemma KeyTells(r: Round, s: Round)
    requires PlainRound(r) && PlainRound(s)
    ensures ProgressKey(r) == ProgressKey(s) <==>
      && r.fingerprint == s.fingerprint && r.mandatory == s.mandatory
      && multiset(ProbeTexts(r.probes)) == multiset(ProbeTexts(s.probes))
  {
    var a, b := SortTexts(ProbeTexts(r.probes)), SortTexts(ProbeTexts(s.probes));
    SortTextsSorts(ProbeTexts(r.probes));
    SortTextsSorts(ProbeTexts(s.probes));
    ProofTextTells(r.mandatory, s.mandatory);
    ProofTextTells(s.mandatory, r.mandatory);
    TextsPlain(r);
    TextsPlain(s);
    ListTells(a, b);
    if multiset(a) == multiset(b) { AscendingUnique(a, b); }
    if ProgressKey(r) == ProgressKey(s) { KeyParts(r, s); }
  }

  /** With a separator inside a name, two different probes print alike. */
  lemma SeparatorsCollide() returns (p: Probe, q: Probe)
    ensures Text.Trim(p.provider) != Text.Trim(q.provider) && Text.Trim(p.group) != Text.Trim(q.group)
    ensures ProbeText(p) == ProbeText(q)
  {
    p := Probe("b/c", "a", true);
    q := Probe("c", "a/b", true);
    assert Text.Trim("a") == "a" && Text.Trim("c") == "c" && Text.Trim("a/b") == "a/b" && Text.Trim("b/c") == "b/c";
  }

  /** Every sorted probe text is free of commas and semicolons, and not empty. */
  lemma TextsPlain(r: Round)
    requires PlainRound(r)
    ensures forall x :: x in SortTexts(ProbeTexts(r.probes)) ==> ',' !in x && ';' !in x && x != ""
  {
    var texts := ProbeTexts(r.probes);
    SortTextsSorts(texts);
    forall x | x in SortTexts(texts) ensures ',' !in x && ';' !in x && x != "" {
      assert x in multiset(SortTexts(texts)) && x in multiset(texts);
      var i :| 0 <= i < |texts| && texts[i] == x;
      ProbeTextPlain(r.probes[i]);
    }
  }

  lemma KeyParts(r: Round, s: Round)
    requires PlainRound(r) && PlainRound(s) && ProgressKey(r) == ProgressKey(s)
    ensures r.fingerprint == s.fingerprint && ProofText(r.mandatory) == ProofText(s.mandatory)
    ensures Text.Joined(SortTexts(ProbeTexts(r.probes)), ',') == Text.Joined(SortTexts(ProbeTexts(s.probes)), ',')
  {
    var x, y := SortTexts(ProbeTexts(r.probes)), SortTexts(ProbeTexts(s.probes));
    TextsPlain(r);
    TextsPlain(s);
    Text.JoinedLacks(x, ',', ';');
    Text.JoinedLacks(y, ',', ';');
    ProofTextTells(r.mandatory, s.mandatory);
    ProofTextTells(s.mandatory, r.mandatory);
    KeyCut(r.fingerprint, ProofText(r.mandatory), Text.Joined(x, ','),
           s.fingerprint, ProofText(s.mandatory), Text.Joined(y, ','));
  }

  /** Read from its end, the text of a key gives its three parts back. */
  lemma KeyCut(f: string, m: string, x: string, g: string, n: string, y: string)
    requires ';' !in m && ';' !in x && ';' !in n && ';' !in y
    requires "uplink=" + f + ";" + ("mandatory=" + m + ";" + ("probes=" + x))
      == "uplink=" + g + ";" + ("mandatory=" + n + ";" + ("probes=" + y))
    ensures f == g && m == n && x == y
  {
    var a, b := "uplink=" + f, "uplink=" + g;
    var u, v := "mandatory=" + m, "mandatory=" + n;
    assert ';' !in "probes=" && ';' !in "mandatory=";
    Regroup(a, u, "probes=" + x);
    Regroup(b, v, "probes=" + y);
    Text.CutAtLast(a + ";" + u, "probes=" + x, b + ";" + v, "probes=" + y, ';');
    Text.CutAtLast(a, u, b, v, ';');
    assert a[7..] == f && b[7..] == g && u[10..] == m && v[10..] == n;
    assert ("probes=" + x)[7..] == x && ("probes=" + y)[7..] == y;
  }

  lemma Regroup(a: string, u: string, p: string)
    ensures a + ";" + (u + ";" + p) == (a + ";" + u) + ";" + p
  {
  }
}
