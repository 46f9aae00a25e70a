/**
 The machine the envelope lifecycle works on: one durable session record, the live nftables
 tables, and what the data plane left behind. This file states which machine states are safe,
 which single steps are allowed, and what follows for whole histories.
 */
module EnvelopeWorld {
  import opened Wrappers
  import opened Intents
  import opened Addresses
  import opened Envelope
  import Runs

  /** A live table; `ours` is its provenance and is never consulted by the lifecycle. */
  datatype Live = Live(plan: Plan, ours: bool)

  datatype World = World(
    record: Option<Session>,
    tables: map<string, Live>,
    residue: bool,            // exact data-plane cleanup has not been proved
    proven: bool,             // the remaining host network was verified after the daemon's last change to it
    boot: string,
    flushes: nat,             // rulesets lost outside the daemon's control (flush, reboot)
    asked: seq<TunPlan>,      // every plan a connect was ever made with; bookkeeping only
    requested: set<Peer>      // old and target peers of the replacement in progress; bookkeeping only
  )

  // ---------------------------------------------------------------- recovery authority

  predicate NoPrevious(p: Protection) {
    p.previousBootstrap == [] && p.previousMarks == []
  }

  /** The composition that was live before the transition an arming authority is in. */
  function Transitions(p: Protection): seq<Protection> {
    (if p.previousBootstrap == [] then []
     else [p.(state := Armed, bootstrap := p.previousBootstrap, previousBootstrap := [])])
    + (if p.previousMarks == [] then [] else [p.(state := Armed, marks := p.previousMarks, previousMarks := [])])
  }

  predicate Replacing(s: Session) {
    s.replacement.Some? && s.replacement.value.previousProtection.Some? && s.protection.Some?
  }

  function Previous(s: Session): Protection
    requires Replacing(s)
  {
    s.replacement.value.previousProtection.value
  }

  function Authorities(s: Session): seq<Protection>
    requires Replacing(s)
  {
    [Previous(s), s.protection.value] + Transitions(s.protection.value)
  }

  ghost function PlansOf(authorities: seq<Protection>): set<Plan> {
    set a | a in authorities :: PlanOf(a)
  }

  /** Every composition the record admits to: three around a replacement, one otherwise. */
  ghost function Candidates(s: Session): set<Plan>
    requires s.protection.Some?
  {
    if Replacing(s) then PlansOf(Authorities(s)) else {PlanOf(s.protection.value)}
  }

  /** RestoreReplacement's update. */
  function Restored(s: Session): Session {
    if s.replacement.None? then s
    else s.(request := s.replacement.value.previousRequest,
            protection := s.replacement.value.previousProtection,
            replacement := None)
  }

  function Rebootstrapped(p: Protection, target: seq<string>): Protection {
    p.(state := Arming, bootstrap := target, previousBootstrap := p.bootstrap)
  }

  function Remarked(p: Protection, target: seq<U32>): Protection {
    p.(state := Arming, marks := target, previousMarks := p.marks)
  }

  /** `next` is `p` on its way to another composition. */
  predicate Retargets(p: Protection, next: Protection) {
    if p.version == ENDPOINT_VERSION then next == Rebootstrapped(p, next.bootstrap) else next == Remarked(p, next.marks)
  }

  lemma PlansOfAuthorities(s: Session)
    requires Replacing(s)
    ensures PlansOf(Authorities(s))
      == {PlanOf(Previous(s)), PlanOf(s.protection.value)} + PlansOf(Transitions(s.protection.value))
  {
    var a := Authorities(s);
    forall plan | plan in PlansOf(a)
      ensures plan in {PlanOf(Previous(s)), PlanOf(s.protection.value)} + PlansOf(Transitions(s.protection.value)) {
      var p :| p in a && PlanOf(p) == plan;
    }
    assert a[0] in a && a[1] in a;
    assert forall p :: p in Transitions(s.protection.value) ==> p in a;
  }

  lemma RetargetTransitions(p: Protection, next: Protection)
    requires ValidProtection(p) && ValidProtection(next) && Retargets(p, next)
    ensures PlansOf(Transitions(next)) == {PlanOf(p)}
  {
    var t := if p.version == ENDPOINT_VERSION
             then next.(state := Armed, bootstrap := p.bootstrap, previousBootstrap := [])
             else next.(state := Armed, marks := p.marks, previousMarks := []);
    assert PlanOf(t) == PlanOf(p);
    assert Transitions(next) == [t];
    assert t in [t];
  }

  lemma TransitionsTidy(p: Protection)
    ensures NoPrevious(p) ==> PlansOf(Transitions(p)) == {}
  {
    assert NoPrevious(p) ==> Transitions(p) == [];
  }

  /**
   Exactly when retargeting inside a replacement keeps every live composition recoverable: the
   transition being left behind must itself be the previous, the current or the next composition.
   An armed authority, which PrepareReplacement demands, carries no transition at all.
   */
  lemma RetargetKeepsAuthority(s: Session, next: Protection)
    requires ValidSession(s) && Replacing(s) && ValidProtection(next) && Retargets(s.protection.value, next)
    ensures Candidates(s) <= Candidates(s.(protection := Some(next)))
      <==> PlansOf(Transitions(s.protection.value)) <= {PlanOf(Previous(s)), PlanOf(s.protection.value), PlanOf(next)}
    ensures NoPrevious(s.protection.value) ==> Candidates(s) <= Candidates(s.(protection := Some(next)))
  {
    PlansOfAuthorities(s);
    PlansOfAuthorities(s.(protection := Some(next)));
    RetargetTransitions(s.protection.value, next);
    TransitionsTidy(s.protection.value);
  }

  function PreviousPeers(p: Protection): set<Peer> {
    (set e | e in p.previousBootstrap :: Endpoint(e)) + (set m | m in p.previousMarks :: EgressMark(m))
  }

  /** Every endpoint and mark a record names, on either side of a transition. */
  function Mentioned(s: Session): set<Peer> {
    (if s.protection.Some? then Peers(s.protection.value) + PreviousPeers(s.protection.value) else {})
    + (if s.replacement.Some? && s.replacement.value.previousProtection.Some?
       then Peers(s.replacement.value.previousProtection.value) else {})
  }

  // ---------------------------------------------------------------- safe states

  /** A composition startup may go back to. */
  predicate Resting(p: Protection) {
    p.state.Arming? || p.state.Armed?
  }

  /** The test Connect makes before it erases a replacement: nothing has moved since it was recorded. */
  predicate Unmoved(s: Session) {
    Replacing(s) && s.protection.value == Previous(s)
  }

  /**
   Previous compositions occur only while arming inside a replacement, and a replacement moves only
   away from a composition recovery can go back to.
   */
  ghost predicate Tidy(s: Session) {
    && (s.protection.Some? ==> !s.protection.value.state.Unarmed?)
    && (s.protection.Some? && s.replacement.None? ==> NoPrevious(s.protection.value))
    && (Replacing(s) ==> NoPrevious(Previous(s)) && (Unmoved(s) || Resting(Previous(s))))
  }

  /** A record in replacement names only the old peers and those the connect asked for. */
  ghost predicate Bounded(w: World, s: Session) {
    Replacing(s) ==> Mentioned(s) <= w.requested
  }

  ghost predicate Names(w: World, table: string) {
    && w.record.Some? && w.record.value.boot == w.boot
    && w.record.value.protection.Some? && w.record.value.protection.value.table == table
  }

  /** A table the daemon put up is named by an accepted record of this boot and holds a composition of it. */
  ghost predicate Inv(w: World) {
    && w.boot != ""
    && (w.record.Some? ==> ValidSession(w.record.value) && Tidy(w.record.value) && Bounded(w, w.record.value))
    && (forall n :: n in w.tables && w.tables[n].ours ==> Names(w, n))
    && (forall n :: n in w.tables && Names(w, n) ==> w.tables[n].ours && w.tables[n].plan in Candidates(w.record.value))
  }

  /** What may happen to a table the daemon does not lose: it stays, or it is deliberately removed. */
  ghost predicate TablesMove(a: World, b: World) {
    a.flushes == b.flushes ==>
      forall n :: n in a.tables ==>
        if a.tables[n].ours then (n in b.tables && b.tables[n].ours) || Removable(a, n)
        else n in b.tables && b.tables[n] == a.tables[n]
  }

  /** Removal needs converged authority, declared removal, and no data plane behind the barrier. */
  ghost predicate Removable(w: World, table: string) {
    Names(w, table) && w.record.value.replacement.None? && w.record.value.protection.value.state.Removing? && !w.residue
  }

  /** One session's intent and epoch only climb; its record goes only once no envelope authority is left. */
  ghost predicate RecordMoves(a: World, b: World) {
    a.record.Some? ==>
      var s := a.record.value;
      if b.record.Some? then
        var t := b.record.value;
        s.id == t.id && s.boot == t.boot && IntentRank(s.intent) <= IntentRank(t.intent) && s.epoch <= t.epoch
      else s.protection.None? || s.boot != a.boot
  }

  /** What some plans ask the envelope to let through. */
  function Targets(plans: seq<TunPlan>): set<Peer> {
    set plan, x | plan in plans && x in Target(plan) :: x
  }

  /**
   A replacement starts out asking for the old peers alone. While it stays recorded, its way back is
   fixed and nothing is added but the targets of the plans a connect is made with.
   */
  ghost predicate RequestMoves(a: World, b: World) {
    && a.asked <= b.asked
    && (MidReplacement(b) ==>
          if MidReplacement(a) then
            b.record.value.replacement == a.record.value.replacement
            && b.requested <= a.requested + Targets(b.asked[|a.asked|..])
          else b.requested == Peers(Previous(b.record.value)))
  }

  ghost predicate Allowed(a: World, b: World) {
    TablesMove(a, b) && RecordMoves(a, b) && RequestMoves(a, b)
  }

  /** Every state of the history is safe and every step between neighbours allowed. */
  ghost predicate SafeHistory(h: seq<World>) {
    Runs.Chain(Inv, Allowed, h)
  }

  // ---------------------------------------------------------------- what a safe history means

  /** Over any stretch that keeps a record, intent and recovery epoch only climb. */
  lemma IntentClimbs(h: seq<World>, i: nat, j: nat)
    requires SafeHistory(h) && i <= j < |h|
    requires forall k :: i <= k <= j ==> h[k].record.Some?
    ensures h[i].record.Some? && h[j].record.Some?
    ensures var s, t := h[i].record.value, h[j].record.value;
      s.id == t.id && IntentRank(s.intent) <= IntentRank(t.intent) && s.epoch <= t.epoch
  {
    var s := h[i].record.value;
    var climbed := (w: World) => w.record.Some? && w.record.value.id == s.id && s.epoch <= w.record.value.epoch
      && IntentRank(s.intent) <= IntentRank(w.record.value.intent);
    forall a, b | Allowed(a, b) && b.record.Some? && climbed(a) ensures climbed(b) {
    }
    Runs.ChainKeeps(Inv, Allowed, (w: World) => w.record.Some?, climbed, h, i, j);
  }

  ghost predicate MidReplacement(w: World) {
    w.record.Some? && w.record.value.boot == w.boot && Replacing(w.record.value)
  }

  function Table(w: World): string
    requires w.record.Some? && w.record.value.protection.Some?
  {
    w.record.value.protection.value.table
  }

  lemma BarrierStep(a: World, b: World)
    requires Inv(a) && Inv(b) && Allowed(a, b) && a.flushes == b.flushes
    requires MidReplacement(a) && MidReplacement(b) && Table(a) in a.tables
    ensures Table(b) == Table(a) && Table(b) in b.tables
  {
    assert Names(a, Table(a));
    assert b.tables[Table(a)].ours;
  }

  /**
   No gap: while a replacement stays recorded and nobody outside flushes the ruleset, a live
   envelope is never absent, and it holds one of the record's own compositions.
   */
  lemma BarrierStays(h: seq<World>, i: nat, j: nat)
    requires SafeHistory(h) && i <= j < |h|
    requires forall k :: i <= k <= j ==> MidReplacement(h[k]) && h[k].flushes == h[i].flushes
    requires MidReplacement(h[i]) && Table(h[i]) in h[i].tables
    ensures MidReplacement(h[j]) && Table(h[j]) == Table(h[i]) && Table(h[j]) in h[j].tables
    ensures h[j].tables[Table(h[j])].plan in PlansOf(Authorities(h[j].record.value))
  {
    var t, f := Table(h[i]), h[i].flushes;
    var during := (w: World) => MidReplacement(w) && w.flushes == f;
    var up := (w: World) => MidReplacement(w) && Table(w) == t && t in w.tables;
    forall a, b | Inv(a) && Inv(b) && Allowed(a, b) && during(a) && during(b) && up(a) ensures up(b) {
      BarrierStep(a, b);
    }
    Runs.ChainKeeps(Inv, Allowed, during, up, h, i, j);
    Runs.ChainAt(Inv, Allowed, h, j);
    LiveIsCandidate(h[j]);
  }

  lemma LiveIsCandidate(w: World)
    requires Inv(w) && MidReplacement(w) && Table(w) in w.tables
    ensures w.tables[Table(w)].plan in PlansOf(Authorities(w.record.value))
  {
    assert Names(w, Table(w));
  }

  /** Write-ahead ownership: whenever a table of ours is live, an accepted record of this boot names it. */
  lemma LiveTableNamed(h: seq<World>, k: nat, n: string)
    requires SafeHistory(h) && k < |h| && n in h[k].tables && h[k].tables[n].ours
    ensures h[k].record.Some? && ValidSession(h[k].record.value) && h[k].record.value.boot == h[k].boot
    ensures h[k].record.value.protection.Some? && h[k].record.value.protection.value.table == n
  {
    Runs.ChainAt(Inv, Allowed, h, k);
    assert Names(h[k], n);
  }

  /** Recoverability: under a recorded replacement the live table is absent or one of the recovery plans. */
  lemma LiveRecoverable(h: seq<World>, k: nat)
    requires SafeHistory(h) && k < |h| && MidReplacement(h[k])
    ensures Table(h[k]) !in h[k].tables || h[k].tables[Table(h[k])].plan in PlansOf(Authorities(h[k].record.value))
  {
    Runs.ChainAt(Inv, Allowed, h, k);
    if Table(h[k]) in h[k].tables { LiveIsCandidate(h[k]); }
  }

  /** Previous compositions are recorded only while arming inside a replacement. */
  lemma PreviousOnlyWhileArming(h: seq<World>, k: nat)
    requires SafeHistory(h) && k < |h| && h[k].record.Some? && h[k].record.value.protection.Some?
    requires !NoPrevious(h[k].record.value.protection.value)
    ensures h[k].record.value.protection.value.state.Arming? && h[k].record.value.replacement.Some?
  {
    Runs.ChainAt(Inv, Allowed, h, k);
  }

  /** An envelope is taken down only after data-plane cleanup, under a converged and declared removal. */
  lemma EnvelopeGoesLast(h: seq<World>, k: nat, n: string)
    requires SafeHistory(h) && k + 1 < |h| && h[k].flushes == h[k + 1].flushes
    requires n in h[k].tables && h[k].tables[n].ours && n !in h[k + 1].tables
    ensures Removable(h[k], n)
  {
    Runs.ChainAt(Inv, Allowed, h, k);
  }

  /** A record of this boot goes only when it holds no envelope authority and no table of ours is live. */
  lemma RecordGoesLast(h: seq<World>, k: nat, n: string)
    requires SafeHistory(h) && k + 1 < |h| && h[k].record.Some? && h[k].record.value.boot == h[k].boot
    requires h[k + 1].record.None?
    ensures h[k].record.value.protection.None? && (n in h[k].tables ==> !h[k].tables[n].ours)
  {
    Runs.ChainAt(Inv, Allowed, h, k);
    if n in h[k].tables && h[k].tables[n].ours { LiveTableNamed(h, k, n); }
  }

  /**
   However a replacement ends, the live envelope then is the one the remaining record names or none.
   If it was given up, that is the previous one.
   */
  lemma EndsOnRecorded(h: seq<World>, k: nat)
    requires SafeHistory(h) && k + 1 < |h| && MidReplacement(h[k]) && Present(h[k + 1])
    requires h[k + 1].record.value.replacement.None?
    ensures h[k + 1].record.value.protection.Some? && Table(h[k + 1]) in h[k + 1].tables ==>
      LiveIs(h[k + 1], Table(h[k + 1]), PlanOf(h[k + 1].record.value.protection.value))
    ensures h[k + 1].record.value == Restored(h[k].record.value) && Table(h[k]) in h[k + 1].tables ==>
      LiveIs(h[k + 1], Table(h[k]), PlanOf(Previous(h[k].record.value)))
  {
    Runs.ChainAt(Inv, Allowed, h, k);
    Runs.ChainAt(Inv, Allowed, h, k + 1);
    var w := h[k + 1];
    if w.record.value.protection.Some? && Table(w) in w.tables { assert Names(w, Table(w)); }
  }

  // ---------------------------------------------------------------- what each write keeps

  /** Every table of ours is named by `s` and holds a composition of it, and no foreign table is. */
  ghost predicate Covers(w: World, s: Session) {
    && (forall n :: n in w.tables && w.tables[n].ours ==> s.protection.Some? && s.protection.value.table == n)
    && (s.protection.Some? && s.protection.value.table in w.tables ==>
          var live := w.tables[s.protection.value.table];
          live.ours && live.plan in Candidates(s))
  }

  predicate Follows(w: World, s: Session) {
    && s.boot == w.boot
    && (w.record.Some? ==>
          var r := w.record.value;
          r.id == s.id && r.boot == s.boot && IntentRank(r.intent) <= IntentRank(s.intent) && r.epoch <= s.epoch)
  }

  /** A record in replacement continues the one on record, or begins with the old peers alone. */
  ghost predicate Continues(w: World, s: Session) {
    Replacing(s) ==>
      if MidReplacement(w) then s.replacement == w.record.value.replacement else w.requested == Peers(Previous(s))
  }

  ghost predicate Leads(w: World, u: World, v: World) {
    v == u ==> Inv(v) && Allowed(w, v)
  }

  /** Going from `w` to `u` is safe. Said of all equal states, so that it is unfolded only by `SafeStepIff`. */
  ghost predicate SafeStep(w: World, u: World) {
    forall v :: Leads(w, u, v)
  }

  lemma SafeStepIff(w: World, u: World)
    ensures SafeStep(w, u) <==> Inv(u) && Allowed(w, u)
  {
    if SafeStep(w, u) { assert Leads(w, u, u); }
  }

  ghost predicate SafeWrite(w: World, s: Session) {
    SafeStep(w, w.(record := Some(s)))
  }

  /** SetProtection's update: one field of the record, whatever else has changed in it. */
  function WithProtection(w: World, p: Option<Protection>): World
    requires w.record.Some?
  {
    w.(record := Some(w.record.value.(protection := p)))
  }

  ghost predicate SafeProtect(w: World, p: Option<Protection>) {
    Present(w) && SafeStep(w, WithProtection(w, p))
  }

  lemma WriteKeeps(w: World, s: Session)
    requires Inv(w) && ValidSession(s) && Tidy(s) && Bounded(w, s) && Covers(w, s) && Follows(w, s) && Continues(w, s)
    ensures SafeWrite(w, s)
  {
    SafeStepIff(w, w.(record := Some(s)));
  }

  lemma CurrentCovers(w: World)
    requires Inv(w) && w.record.Some? && w.record.value.boot == w.boot
    ensures Covers(w, w.record.value)
  {
    if w.record.value.protection.Some? { assert Names(w, Table(w)); }
  }

  /** A write that leaves protection and replacement alone. */
  lemma PlainWriteKeeps(w: World, s: Session)
    requires Inv(w) && w.record.Some? && w.record.value.boot == w.boot && ValidSession(s) && Follows(w, s)
    requires s.protection == w.record.value.protection && s.replacement == w.record.value.replacement
    ensures SafeWrite(w, s)
  {
    CurrentCovers(w);
    assert Tidy(s) && Mentioned(s) == Mentioned(w.record.value);
    WriteKeeps(w, s);
  }

  ghost predicate LiveIs(w: World, table: string, plan: Plan) {
    table in w.tables && w.tables[table].plan == plan
  }

  /** A record of this boot exists. */
  predicate Present(w: World) {
    w.record.Some? && w.record.value.boot == w.boot
  }

  function Begun(s: Session, request: Request): Session
    requires s.protection.Some?
  {
    s.(request := request, replacement := Some(Replacement(s.request, s.protection)))
  }

  lemma BeginKeeps(w: World, request: Request)
    requires Inv(w) && w.record.Some? && w.record.value.boot == w.boot && ValidRequest(request)
    requires w.record.value.protection.Some? && w.record.value.replacement.None? && request.handoff.ReplacePodlaz?
    requires Peers(w.record.value.protection.value) == w.requested
    ensures SafeWrite(w, Begun(w.record.value, request))
  {
    var s := Begun(w.record.value, request);
    CurrentCovers(w);
    PlansOfAuthorities(s);
    assert Mentioned(s) <= Peers(s.protection.value);
    WriteKeeps(w, s);
  }

  lemma RetargetMentions(s: Session, next: Protection, peers: set<Peer>)
    requires ValidSession(s) && Replacing(s) && Retargets(s.protection.value, next) && ValidProtection(next)
    requires Mentioned(s) <= peers && Peers(next) <= peers
    ensures Mentioned(s.(protection := Some(next))) <= peers
  {
    assert PreviousPeers(next) <= Peers(s.protection.value);
  }

  lemma RetargetKeeps(w: World, next: Protection)
    requires Inv(w) && MidReplacement(w) && ValidProtection(next)
    requires Retargets(w.record.value.protection.value, next) && !w.record.value.protection.value.state.Removing?
    requires Candidates(w.record.value) <= Candidates(w.record.value.(protection := Some(next)))
    requires Peers(next) <= w.requested
    ensures SafeProtect(w, Some(next))
  {
    var s := w.record.value.(protection := Some(next));
    CurrentCovers(w);
    RetargetMentions(w.record.value, next, w.requested);
    WriteKeeps(w, s);
  }

  function Verified(p: Protection): Protection {
    p.(state := Armed, previousBootstrap := [], previousMarks := [])
  }

  /** The live envelope is exactly the armed composition the record names. */
  ghost predicate VerifiedNow(w: World) {
    && Present(w) && w.record.value.protection.Some?
    && w.record.value.protection.value.state.Armed? && NoPrevious(w.record.value.protection.value)
    && LiveIs(w, Table(w), PlanOf(w.record.value.protection.value))
  }

  /** The table the record names is gone, or exactly the composition the record names. */
  ghost predicate Standing(w: World) {
    && Present(w) && w.record.value.protection.Some?
    && (Table(w) in w.tables ==> LiveIs(w, Table(w), PlanOf(w.record.value.protection.value)))
  }

  /** After an exact verification the authority forgets the composition it came from. */
  lemma VerifiedKeeps(w: World)
    requires Inv(w) && w.record.Some? && w.record.value.boot == w.boot && w.record.value.protection.Some?
    requires !w.record.value.protection.value.state.Removing? && Standing(w)
    ensures SafeProtect(w, Some(Verified(w.record.value.protection.value)))
  {
    var p := w.record.value.protection.value;
    var s := w.record.value.(protection := Some(Verified(p)));
    CurrentCovers(w);
    assert PlanOf(Verified(p)) == PlanOf(p);
    if Replacing(s) {
      PlansOfAuthorities(s);
      assert Mentioned(s) <= Mentioned(w.record.value);
    }
    WriteKeeps(w, s);
  }

  /**
   A replacement may be given up exactly when the live envelope is the previous one or absent.
   Until then the restored record would name a composition that is not the live one.
   */
  lemma RestoreKeepsIff(w: World)
    requires Inv(w) && MidReplacement(w)
    ensures Inv(w.(record := Some(Restored(w.record.value))))
      <==> Table(w) !in w.tables || LiveIs(w, Table(w), PlanOf(Previous(w.record.value)))
    ensures ValidSession(Restored(w.record.value)) && Allowed(w, w.(record := Some(Restored(w.record.value))))
  {
    var s := Restored(w.record.value);
    CurrentCovers(w);
    var after := w.(record := Some(s));
    SafeStepIff(w, after);
    if Table(w) !in w.tables || LiveIs(w, Table(w), PlanOf(Previous(w.record.value))) {
      WriteKeeps(w, s);
    } else {
      assert Names(after, Table(w));
    }
  }

  function Committed(s: Session): Session {
    s.(replacement := None, request := s.request.(handoff := Block))
  }

  /** Committing is the mirror image: the live envelope must be the target or absent. */
  lemma CommitKeepsIff(w: World)
    requires Inv(w) && MidReplacement(w) && NoPrevious(w.record.value.protection.value)
    ensures Inv(w.(record := Some(Committed(w.record.value))))
      <==> Table(w) !in w.tables || LiveIs(w, Table(w), PlanOf(w.record.value.protection.value))
    ensures ValidSession(Committed(w.record.value)) && Allowed(w, w.(record := Some(Committed(w.record.value))))
  {
    var s := Committed(w.record.value);
    CurrentCovers(w);
    var after := w.(record := Some(s));
    SafeStepIff(w, after);
    if Table(w) !in w.tables || LiveIs(w, Table(w), PlanOf(w.record.value.protection.value)) {
      WriteKeeps(w, s);
    } else {
      assert Names(after, Table(w));
    }
  }

  /** A converged authority may change its protection state. */
  lemma StateWriteKeeps(w: World, state: ProtectionState)
    requires Inv(w) && !state.Unarmed? && w.record.Some? && w.record.value.boot == w.boot
    requires w.record.value.protection.Some? && w.record.value.replacement.None?
    ensures SafeProtect(w, Some(w.record.value.protection.value.(state := state)))
  {
    var p := w.record.value.protection.value;
    var s := w.record.value.(protection := Some(p.(state := state)));
    CurrentCovers(w);
    assert PlanOf(p.(state := state)) == PlanOf(p);
    WriteKeeps(w, s);
  }

  lemma ClearKeeps(w: World)
    requires Inv(w) && w.record.Some? && w.record.value.boot == w.boot
    requires w.record.value.replacement.None? && (w.record.value.protection.Some? ==> Table(w) !in w.tables)
    ensures SafeProtect(w, None)
  {
    CurrentCovers(w);
    WriteKeeps(w, w.record.value.(protection := None));
  }

  lemma AllocateKeeps(w: World, p: Protection)
    requires Inv(w) && w.record.Some? && w.record.value.boot == w.boot && w.record.value.protection.None?
    requires ValidProtection(p) && NoPrevious(p) && p.state.Arming? && p.table !in w.tables
    ensures SafeProtect(w, Some(p))
  {
    CurrentCovers(w);
    WriteKeeps(w, w.record.value.(protection := Some(p)));
  }

  // ---------------------------------------------------------------- what each live mutation keeps

  function Mounted(w: World, plan: Plan): World {
    w.(tables := w.tables[plan.table := Live(plan, true)], proven := false)
  }

  /** Creating or swapping the table the record names, to a composition the record admits to. */
  lemma MountKeeps(w: World, plan: Plan)
    requires Inv(w) && Names(w, plan.table) && plan in Candidates(w.record.value)
    ensures SafeStep(w, Mounted(w, plan))
  {
    MountSound(w, plan);
    SafeStepIff(w, Mounted(w, plan));
  }

  lemma MountSound(w: World, plan: Plan)
    requires Inv(w) && Names(w, plan.table) && plan in Candidates(w.record.value)
    ensures Inv(Mounted(w, plan)) && Allowed(w, Mounted(w, plan))
  {
    var b := Mounted(w, plan);
    forall n | n in b.tables && b.tables[n].ours ensures Names(b, n) {
      if n != plan.table { assert w.tables[n].ours; }
    }
    forall n | n in b.tables && Names(b, n) ensures b.tables[n].ours && b.tables[n].plan in Candidates(b.record.value) {
      assert n == plan.table;
    }
    assert plan.table in w.tables ==> w.tables[plan.table].ours;
  }

  function Unmounted(w: World, table: string): World {
    w.(tables := w.tables - {table}, proven := false)
  }

  lemma UnmountKeeps(w: World, table: string)
    requires Inv(w) && Removable(w, table)
    ensures SafeStep(w, Unmounted(w, table))
  {
    SafeStepIff(w, Unmounted(w, table));
    assert table in w.tables ==> w.tables[table].ours;
  }

  // ---------------------------------------------------------------- who gets through

  /** What a plan asks the envelope to let through. */
  function Target(plan: TunPlan): set<Peer> {
    if plan.mark != 0 then {EgressMark(plan.mark)}
    else if ParseIPv4(plan.server).Some? then {Endpoint(ParseIPv4(plan.server).value)}
    else {}
  }

  /** A composition of a bounded record lets nobody else through. */
  lemma CandidateBounded(s: Session, plan: Plan, peers: set<Peer>, packet: Packet)
    requires ValidSession(s) && Replacing(s) && plan in PlansOf(Authorities(s)) && Mentioned(s) <= peers
    requires Accepts(plan, packet)
    ensures Infrastructure(s.protection.value.tun, packet) || Reaches(packet, peers)
  {
    var a :| a in Authorities(s) && PlanOf(a) == plan;
    AcceptsIff(a, packet);
    assert a.tun == s.protection.value.tun;
    assert Peers(a) <= Mentioned(s) by {
      var p := s.protection.value;
      assert a == Previous(s) || a == p || a in Transitions(p);
    }
  }

  lemma TargetsMore(plans: seq<TunPlan>, n: nat, m: nat)
    requires n <= m <= |plans|
    ensures Targets(plans[n..m]) <= Targets(plans[n..]) && Targets(plans[m..]) <= Targets(plans[n..])
  {
    assert forall x :: x in plans[n..m] ==> x in plans[n..];
    assert forall x :: x in plans[m..] ==> x in plans[n..];
  }

  /** Since a state with this way back and these plans asked for, only their targets were added. */
  ghost predicate AskedOnly(w: World, r: Option<Replacement>, asked: seq<TunPlan>, peers: set<Peer>) {
    && MidReplacement(w) && w.record.value.replacement == r && asked <= w.asked
    && w.requested <= peers + Targets(w.asked[|asked|..])
  }

  lemma AskedStep(a: World, b: World, r: Option<Replacement>, asked: seq<TunPlan>, peers: set<Peer>)
    requires Allowed(a, b) && MidReplacement(b) && AskedOnly(a, r, asked, peers)
    ensures AskedOnly(b, r, asked, peers)
  {
    var n, m := |asked|, |a.asked|;
    assert b.asked[n..m] == a.asked[n..];
    TargetsMore(b.asked, n, m);
  }

  /** From the moment a replacement begins, only the old peers and the targets of later connects are asked for. */
  lemma RequestedBounded(h: seq<World>, b: nat, j: nat)
    requires SafeHistory(h) && 0 < b <= j < |h| && !MidReplacement(h[b - 1])
    requires forall k :: b <= k <= j ==> MidReplacement(h[k])
    ensures MidReplacement(h[b])
    ensures AskedOnly(h[j], h[b].record.value.replacement, h[b].asked, Peers(Previous(h[b].record.value)))
  {
    Runs.ChainAt(Inv, Allowed, h, b - 1);
    var r, asked, peers := h[b].record.value.replacement, h[b].asked, Peers(Previous(h[b].record.value));
    forall x, y | Allowed(x, y) && MidReplacement(y) && AskedOnly(x, r, asked, peers)
      ensures AskedOnly(y, r, asked, peers)
    {
      AskedStep(x, y, r, asked, peers);
    }
    Runs.ChainKeeps(Inv, Allowed, MidReplacement, w => AskedOnly(w, r, asked, peers), h, b, j);
  }

  /**
   No leak across a whole replacement, from its beginning at `b`: for as long as it stays recorded
   and from any point `i` on where the envelope is up and the ruleset is not flushed from outside,
   the envelope stays up, and apart from loopback, the tunnel, DHCP and IPv6 link control it accepts
   only the old peers and the targets of the plans connects were made with since.
   */
  lemma NoLeak(h: seq<World>, b: nat, i: nat, j: nat, packet: Packet)
    requires SafeHistory(h) && 0 < b <= i <= j < |h| && !MidReplacement(h[b - 1])
    requires forall k :: b <= k <= j ==> MidReplacement(h[k])
    requires forall k :: i <= k <= j ==> h[k].flushes == h[i].flushes
    requires MidReplacement(h[i]) && Table(h[i]) in h[i].tables && MidReplacement(h[b])
    ensures MidReplacement(h[j]) && Table(h[j]) in h[j].tables && h[b].asked <= h[j].asked
    ensures Accepts(h[j].tables[Table(h[j])].plan, packet) ==>
      || Infrastructure(h[j].record.value.protection.value.tun, packet)
      || Reaches(packet, Peers(Previous(h[b].record.value)) + Targets(h[j].asked[|h[b].asked|..]))
  {
    BarrierStays(h, i, j);
    RequestedBounded(h, b, j);
    Runs.ChainAt(Inv, Allowed, h, j);
    if Accepts(h[j].tables[Table(h[j])].plan, packet) {
      CandidateBounded(h[j].record.value, h[j].tables[Table(h[j])].plan, h[j].requested, packet);
    }
  }

  /** Widening a composition never cuts off anyone it let through. */
  lemma WiderAccepts(p: Protection, q: Protection, packet: Packet)
    requires p.tun == q.tun && Peers(p) <= Peers(q) && Accepts(PlanOf(p), packet)
    ensures Accepts(PlanOf(q), packet)
  {
    AcceptsIff(p, packet);
    AcceptsIff(q, packet);
  }

  /** If the record admits to `a`, then `a` has not dropped a peer of the previous composition. */
  ghost predicate KeepsOld(s: Session, a: Protection)
    requires Replacing(s)
  {
    a in Authorities(s) ==> Peers(Previous(s)) <= Peers(a)
  }

  /** No composition the record admits to has dropped a peer of the previous one. */
  ghost predicate Wide(s: Session) {
    Replacing(s) && forall a :: KeepsOld(s, a)
  }

  /** Until the record narrows, every packet the old envelope accepted is still accepted. */
  lemma OldStillAccepted(w: World, packet: Packet)
    requires Inv(w) && MidReplacement(w) && Wide(w.record.value) && Table(w) in w.tables
    requires Accepts(PlanOf(Previous(w.record.value)), packet)
    ensures Accepts(w.tables[Table(w)].plan, packet)
  {
    LiveIsCandidate(w);
    var s := w.record.value;
    var a :| a in Authorities(s) && PlanOf(a) == w.tables[Table(w)].plan;
    assert a.tun == Previous(s).tun && KeepsOld(s, a);
    WiderAccepts(Previous(s), a, packet);
  }

  lemma BegunWide(s: Session, request: Request)
    requires s.protection.Some? && NoPrevious(s.protection.value)
    ensures Wide(Begun(s, request))
  {
    assert Transitions(s.protection.value) == [];
  }

  lemma RetargetWide(s: Session, next: Protection)
    requires Wide(s) && NoPrevious(s.protection.value) && Retargets(s.protection.value, next)
    requires Peers(s.protection.value) <= Peers(next)
    ensures Wide(s.(protection := Some(next)))
  {
    var p, t := s.protection.value, s.(protection := Some(next));
    assert p in Authorities(s) && KeepsOld(s, p);
    forall a ensures KeepsOld(t, a) {
      if a in Authorities(t) {
        assert a == Previous(t) || a == next || a in Transitions(next);
        if a in Transitions(next) { assert Peers(p) <= Peers(a); }
      }
    }
  }

  function VerifiedRecord(s: Session): Session
    requires s.protection.Some?
  {
    s.(protection := Some(Verified(s.protection.value)))
  }

  lemma VerifiedWide(s: Session)
    requires Wide(s)
    ensures Wide(VerifiedRecord(s))
  {
    var v := VerifiedRecord(s);
    assert s.protection.value in Authorities(s) && KeepsOld(s, s.protection.value);
    assert Peers(v.protection.value) == Peers(s.protection.value);
    assert Transitions(v.protection.value) == [];
  }

  /**
   What the caller can read off the record decides: giving the replacement up is safe whatever
   table is live exactly when every composition the record admits to is the previous one.
   */
  lemma GateExact(w: World)
    requires Inv(w) && MidReplacement(w)
    ensures (forall live :: live in Candidates(w.record.value) ==>
               Inv(WithLive(w, live).(record := Some(Restored(w.record.value)))))
      <==> Candidates(w.record.value) == {PlanOf(Previous(w.record.value))}
    ensures Unmoved(w.record.value) ==> Candidates(w.record.value) == {PlanOf(Previous(w.record.value))}
  {
    var s := w.record.value;
    PlansOfAuthorities(s);
    TransitionsTidy(s.protection.value);
    assert PlanOf(Previous(s)) in Candidates(s);
    forall live | live in Candidates(s)
      ensures Inv(WithLive(w, live).(record := Some(Restored(s)))) <==> live == PlanOf(Previous(s))
    {
      MountKeeps(w, live) by { CandidateTables(s, live); }
      SafeStepIff(w, WithLive(w, live));
      CandidateTables(s, live);
      RestoreKeepsIff(WithLive(w, live));
    }
  }

  function WithLive(w: World, live: Plan): World {
    Mounted(w, live)
  }

  lemma CandidateTables(s: Session, plan: Plan)
    requires ValidSession(s) && Replacing(s) && plan in Candidates(s)
    ensures plan.table == s.protection.value.table
  {
    var p := s.protection.value;
    var a :| a in Authorities(s) && PlanOf(a) == plan;
    assert a == Previous(s) || a == p || a in Transitions(p);
  }

  // ---------------------------------------------------------------- meanwhile

  /** The same session, except that somebody may have asked for its disconnect. */
  predicate Raised(s: Session, t: Session) {
    t == s || (s.intent.Resume? && t == s.(intent := Disconnect))
  }

  /** A table may be lost to a flush, and a foreign one may appear under a name that is not of our form. */
  ghost predicate Fades(a: World, b: World, n: string) {
    && (n in b.tables ==> (n in a.tables && b.tables[n] == a.tables[n]) || (!b.tables[n].ours && !ValidTable(n)))
    && (n in a.tables && a.flushes == b.flushes ==> n in b.tables && b.tables[n] == a.tables[n])
  }

  /** The daemon changed no table. */
  ghost predicate Untouched(a: World, b: World) {
    a.flushes <= b.flushes && forall n :: Fades(a, b, n)
  }

  /** What may happen outside the daemon's own control flow between two of its steps. */
  ghost predicate Drift(a: World, b: World) {
    && b == a.(record := b.record, tables := b.tables, flushes := b.flushes)
    && (b.record == a.record || (Present(a) && b.record.Some? && Raised(a.record.value, b.record.value)))
    && Untouched(a, b)
  }

  lemma UntouchedOn(a: World, b: World, c: World)
    requires Untouched(a, b) && Untouched(b, c)
    ensures Untouched(a, c)
  {
    forall n ensures Fades(a, c, n) { assert Fades(a, b, n) && Fades(b, c, n); }
  }

  lemma DriftOn(a: World, b: World, c: World)
    requires Drift(a, b) && Drift(b, c)
    ensures Drift(a, c)
  {
    UntouchedOn(a, b, c);
  }

  /** What the daemon knows of its record stays known. */
  lemma DriftRecord(a: World, b: World)
    requires Drift(a, b)
    ensures Present(a) <==> Present(b)
    ensures MidReplacement(a) <==> MidReplacement(b)
    ensures forall n :: Names(a, n) <==> Names(b, n)
    ensures Present(a) && a.record.value.protection.Some? ==> Candidates(a.record.value) == Candidates(b.record.value)
  {
    if Present(a) && a.record.value.protection.Some? { RaisedCandidates(a.record.value, b.record.value); }
  }

  lemma RaisedCandidates(s: Session, t: Session)
    requires Raised(s, t) && s.protection.Some?
    ensures Candidates(s) == Candidates(t)
  {
    if Replacing(s) { assert Authorities(s) == Authorities(t); }
  }

  lemma RaisedWide(s: Session, t: Session)
    requires Raised(s, t)
    ensures Wide(s) <==> Wide(t)
  {
    if Replacing(s) {
      assert Authorities(s) == Authorities(t);
      forall a ensures KeepsOld(s, a) <==> KeepsOld(t, a) {
      }
    }
  }

  lemma DriftKeeps(a: World, b: World)
    requires Inv(a) && Drift(a, b)
    ensures Inv(b)
  {
    DriftRecord(a, b);
    if a.record.Some? { RaisedSound(a, b); }
    forall n | n in b.tables && Names(b, n) ensures b.tables[n].ours && b.tables[n].plan in Candidates(b.record.value) {
      assert Names(a, n) && Fades(a, b, n);
    }
    forall n | n in b.tables && b.tables[n].ours ensures Names(b, n) {
      assert Fades(a, b, n);
    }
  }

  lemma RaisedSound(a: World, b: World)
    requires a.record.Some? && b.record.Some? && Raised(a.record.value, b.record.value) && a.requested == b.requested
    requires ValidSession(a.record.value) && Tidy(a.record.value) && Bounded(a, a.record.value)
    ensures ValidSession(b.record.value) && Tidy(b.record.value) && Bounded(b, b.record.value)
  {
    assert Mentioned(a.record.value) == Mentioned(b.record.value);
  }

  /** A write that was safe when it was decided is safe when it happens. */
  lemma DriftProtect(a: World, b: World, p: Option<Protection>)
    requires Drift(a, b) && SafeProtect(a, p)
    ensures SafeProtect(b, p) && Drift(WithProtection(a, p), WithProtection(b, p))
  {
    SafeStepIff(a, WithProtection(a, p));
    SafeStepIff(b, WithProtection(b, p));
    DriftProtectSound(a, b, p);
  }

  lemma DriftProtectSound(a: World, b: World, p: Option<Protection>)
    requires Drift(a, b) && Present(a) && Inv(WithProtection(a, p)) && Allowed(a, WithProtection(a, p))
    ensures Inv(WithProtection(b, p)) && Allowed(b, WithProtection(b, p))
    ensures Drift(WithProtection(a, p), WithProtection(b, p))
  {
    ProtectedDrifts(a, b, p);
    DriftKeeps(WithProtection(a, p), WithProtection(b, p));
    ProtectAllowed(a, b, p);
  }

  lemma ProtectedDrifts(a: World, b: World, p: Option<Protection>)
    requires Drift(a, b) && Present(a)
    ensures Drift(WithProtection(a, p), WithProtection(b, p))
  {
    var x, y := WithProtection(a, p), WithProtection(b, p);
    assert Raised(x.record.value, y.record.value);
    forall n ensures Fades(x, y, n) { assert Fades(a, b, n); }
  }

  lemma ProtectAllowed(a: World, b: World, p: Option<Protection>)
    requires Drift(a, b) && Present(a) && RequestMoves(a, WithProtection(a, p))
    ensures Allowed(b, WithProtection(b, p))
  {
    var x, y := WithProtection(a, p), WithProtection(b, p);
    assert TablesMove(b, y) && RecordMoves(b, y);
    ProtectedDrifts(a, b, p);
    DriftRecord(a, b);
    DriftRecord(x, y);
  }

  /** The same for a whole record, while nobody else can write it. */
  lemma DriftWrite(a: World, b: World, s: Session)
    requires Drift(a, b) && a.record == b.record && SafeWrite(a, s)
    ensures SafeWrite(b, s)
  {
    var x, y := a.(record := Some(s)), b.(record := Some(s));
    SafeStepIff(a, x);
    SafeStepIff(b, y);
    forall n ensures Fades(x, y, n) { assert Fades(a, b, n); }
    DriftKeeps(x, y);
  }

  /** And for the live table. */
  lemma DriftMountSafe(a: World, b: World, plan: Plan)
    requires Drift(a, b) && SafeStep(a, Mounted(a, plan))
    ensures SafeStep(b, Mounted(b, plan)) && Drift(Mounted(a, plan), Mounted(b, plan))
  {
    var x, y := Mounted(a, plan), Mounted(b, plan);
    SafeStepIff(a, x);
    SafeStepIff(b, y);
    DriftMount(a, b, plan);
    DriftKeeps(x, y);
    DriftRecord(x, y);
    assert Names(x, plan.table) && Fades(a, b, plan.table);
  }

  lemma DriftUnmountSafe(a: World, b: World, plan: Plan)
    requires Inv(a) && Drift(a, b) && Removable(a, plan.table)
    ensures Removable(b, plan.table) && SafeStep(b, Unmounted(b, plan.table))
    ensures Drift(Unmounted(a, plan.table), Unmounted(b, plan.table))
  {
    DriftMount(a, b, plan);
    DriftKeeps(a, b);
    DriftRecord(a, b);
    UnmountKeeps(b, plan.table);
  }

  lemma DriftMount(a: World, b: World, plan: Plan)
    requires Drift(a, b)
    ensures Drift(Mounted(a, plan), Mounted(b, plan)) && Drift(Unmounted(a, plan.table), Unmounted(b, plan.table))
  {
    forall n
      ensures Fades(Mounted(a, plan), Mounted(b, plan), n)
      ensures Fades(Unmounted(a, plan.table), Unmounted(b, plan.table), n)
    {
      assert Fades(a, b, n);
    }
  }

  /** The ruleset is flushed. */
  function Flushed(w: World): World {
    w.(tables := map[], flushes := w.flushes + 1)
  }

  lemma FlushKeeps(w: World)
    requires Inv(w)
    ensures SafeStep(w, Flushed(w)) && Drift(w, Flushed(w))
  {
    SafeStepIff(w, Flushed(w));
    DriftKeeps(w, Flushed(w));
  }

  function Joined(w: World, name: string, plan: Plan): World {
    w.(tables := w.tables[name := Live(plan, false)])
  }

  /** Somebody else's table appears, under a name the record does not claim. */
  lemma JoinKeeps(w: World, name: string, plan: Plan)
    requires Inv(w) && name !in w.tables && !Names(w, name)
    ensures SafeStep(w, Joined(w, name, plan))
    ensures !ValidTable(name) ==> Drift(w, Joined(w, name, plan))
  {
    var b := Joined(w, name, plan);
    assert forall n :: n in b.tables && n != name ==> n in w.tables && b.tables[n] == w.tables[n];
    assert forall n :: Names(w, n) <==> Names(b, n);
    SafeStepIff(w, b);
  }

  /** The shutdown thread's disarm. */
  function Disarmed(w: World): World {
    if Present(w) && w.record.value.intent.Resume? then w.(record := Some(w.record.value.(intent := Disconnect))) else w
  }

  lemma DisarmKeeps(w: World)
    requires Inv(w)
    ensures SafeStep(w, Disarmed(w)) && Drift(w, Disarmed(w))
  {
    SafeStepIff(w, Disarmed(w));
    if Present(w) && w.record.value.intent.Resume? { PlainWriteKeeps(w, w.record.value.(intent := Disconnect)); }
  }
}
