/**
 The Privacy Envelope lifecycle, its recovery, and the connect and teardown flows around it, run
 against a machine on which every durable write, every nftables call and every foreign step can
 fail before or after taking effect, or be cut short by a crash, and on which the ruleset may be
 flushed, foreign tables may appear and the shutdown thread may disarm the session at any step.
 */
module EnvelopeHost {
  import opened Wrappers
  import opened SortedLists
  import opened Intents
  import opened Addresses
  import opened Envelope
  import opened EnvelopeWorld
  import opened EnvelopeTargets
  import Counting
  import Runs

  /** How the next effect goes. */
  datatype Outcome = Fine | ErrorBefore | ErrorAfter | CrashBefore | CrashAfter

  /** What happens on the machine meanwhile. */
  datatype Event = RulesetFlushed | TableAppeared(name: string, plan: Plan) | StopDeclared

  /** One step of the daemon; an exhausted script means that everything goes well from now on. */
  datatype Turn = Turn(events: seq<Event>, outcome: Outcome)

  datatype Loaded = Unreadable | Absent | Found(session: Session)

  // ---------------------------------------------------------------- what a caller learns

  /** The record is the one last read, except that its disconnect may have been asked for since. */
  predicate Known(w: World, s: Session) {
    Present(w) && Raised(s, w.record.value)
  }

  predicate Protected(w: World) {
    Present(w) && w.record.value.protection.Some?
  }

  /** Nothing outside the record and the tables moved. */
  predicate SameMachine(a: World, b: World) {
    && a.boot == b.boot && a.flushes <= b.flushes && a.residue == b.residue
    && a.requested == b.requested && a.asked == b.asked
  }

  /** At most the record was changed. */
  ghost predicate Quiet(a: World, b: World) {
    SameMachine(a, b) && Untouched(a, b) && b.proven == a.proven
  }

  /** The persisted composition is live, and not on its way out. */
  ghost predicate Verifiable(w: World) {
    && Protected(w) && Resting(w.record.value.protection.value)
    && LiveIs(w, Table(w), PlanOf(w.record.value.protection.value))
  }

  /** A replacement may take its next step towards `plan`: armed, resumable, and the persisted composition live. */
  ghost predicate Steady(w: World, plan: TunPlan) {
    && MidReplacement(w) && Verifiable(w) && w.record.value.intent.Resume?
    && w.record.value.protection.value.state.Armed? && Fits(w.record.value.protection.value, plan)
  }

  /** One of the session's sixteen names is free. */
  predicate RoomFor(w: World, id: string) {
    ValidId(id) && !AllTaken(w, id, CANDIDATE_LIMIT)
  }

  /** A first envelope may go up: somebody to let through, an interface, and a free name. */
  predicate FreshReady(w: World, plan: TunPlan) {
    && Present(w) && w.record.value.intent.Resume? && w.record.value.protection.None?
    && RoomFor(w, w.record.value.id) && ValidInterface(plan.tun) && Targeted(plan)
  }

  /** The envelope that is up already is the one asked for. */
  ghost predicate KeptReady(w: World, plan: TunPlan) {
    && Verifiable(w) && w.record.value.intent.Resume? && w.record.value.replacement.None?
    && AlreadyFor(w.record.value.protection.value, plan)
  }

  /** Without faults, arming for `plan` succeeds from here. */
  ghost predicate ArmReady(w: World, plan: TunPlan) {
    Steady(w, plan) || FreshReady(w, plan) || KeptReady(w, plan)
  }

  /** Without faults, connecting with these two plans succeeds from here. */
  ghost predicate ConnectReady(w: World, before: TunPlan, after: TunPlan) {
    if MidReplacement(w) then Steady(w, before) && Fits(w.record.value.protection.value, after)
    else FreshReady(w, after) || KeptReady(w, after)
  }

  /** A session that may go on with this request. */
  predicate Continues(s: Session, request: Request) {
    && s.intent.Resume?
    && (s.replacement.Some? ==> s.request == request)
    && (s.replacement.None? && s.protection.Some? ==>
          if request.handoff.ReplacePodlaz? then s.request.mode == "tun" && request.mode == "tun"
          else s.request.mode == request.mode && s.request.profile == request.profile)
  }

  /** The store takes this request: it is complete, and the session of this boot, if any, may go on with it. */
  predicate Admits(w: World, request: Request) {
    request.mode != "" && request.profile != "" && (Present(w) ==> Continues(w.record.value, request))
  }

  /** The record an admitted request leaves: a new session, a replacement with its way back, or the new request. */
  function Admitted(w: World, request: Request, id: string): Session {
    if !Present(w) then Session(w.boot, id, 0, Resume, request, None, None)
    else
      var s := w.record.value;
      if s.protection.Some? && s.replacement.None? && request.handoff.ReplacePodlaz? then
        s.(request := request, replacement := Some(Replacement(s.request, s.protection)))
      else s.(request := request)
  }

  /** The request a connect may have to go back to. */
  function Remembered(w: World): Option<Request> {
    if Present(w) && w.record.value.intent.Resume? then Some(w.record.value.request) else None
  }

  /** The record became this one, and no table changed. */
  predicate Became(a: World, b: World, s: Session) {
    b.record == Some(s) && b.boot == a.boot && b.tables == a.tables && b.flushes == a.flushes
  }

  /** The record of this boot and the tables are as they were. */
  predicate Unchanged(a: World, b: World) {
    && b.boot == a.boot && b.tables == a.tables && b.flushes == a.flushes
    && if Present(a) then b.record == a.record else !Present(b)
  }

  /** Exactly the admissible requests are taken, and nothing else changes. */
  predicate Answers(a: World, b: World, request: Request, id: string, ok: bool) {
    ok == Admits(a, request) && if ok then Became(a, b, Admitted(a, request, id)) else Unchanged(a, b)
  }

  /** The envelope that is up can be replaced for these plans, or is the one asked for already. */
  ghost predicate EnvelopeReady(w: World, request: Request, plans: (TunPlan, TunPlan)) {
    && Verifiable(w)
    && var p := w.record.value.protection.value;
       if request.handoff.ReplacePodlaz? then p.state.Armed? && Fits(p, plans.0) && Fits(p, plans.1)
       else AlreadyFor(p, plans.1)
  }

  /** Without faults, a connect for this request with these plans succeeds from here. */
  ghost predicate Connectable(w: World, request: Request, id: string, plans: (TunPlan, TunPlan)) {
    && Admits(w, request)
    && if Protected(w) then EnvelopeReady(w, request, plans)
       else
         && RoomFor(w, if Present(w) then w.record.value.id else id)
         && ValidInterface(plans.1.tun) && Targeted(plans.1)
  }

  /** The barrier of this replacement cannot be widened for the plan. */
  ghost predicate Rebuffed(w: World, plan: TunPlan) {
    && MidReplacement(w)
    && !(w.record.value.protection.value.state.Armed? && Fits(w.record.value.protection.value, plan))
  }

  /** An admitted replacement of a protected session that its first plan does not fit. */
  predicate Misfit(w: World, request: Request, plan: TunPlan) {
    && Protected(w) && w.record.value.replacement.None? && Admits(w, request) && request.handoff.ReplacePodlaz?
    && !(w.record.value.protection.value.state.Armed? && Fits(w.record.value.protection.value, plan))
  }

  /** A misfit replacement of a session that itself can be connected again. */
  ghost predicate GoesBack(w: World, request: Request, id: string, plan: TunPlan, back: (TunPlan, TunPlan)) {
    Misfit(w, request, plan) && Connectable(w, w.record.value.request, id, back)
  }

  /** The replacement is refused at its first plan, and the previous request can be connected again. */
  ghost predicate Withdraws(w: World, previous: Request, id: string, plan: TunPlan, back: (TunPlan, TunPlan)) {
    && Rebuffed(w, plan) && MayGoBack(w, previous, Refused(NotStarted, false))
    && Connectable(Rewound(w), previous, id, back)
  }

  /** The open replacement, if any, given up. */
  function Rewound(w: World): World {
    if Present(w) then w.(record := Some(Restored(w.record.value))) else w
  }

  /** A failed replacement may be given up: nothing moved, or it is over and the old request still stands. */
  predicate MayGoBack(w: World, previous: Request, r: ConnectResult)
    requires r.Refused?
  {
    && !r.incomplete && !r.rollback.Failed? && Present(w)
    && var s := w.record.value;
       if s.replacement.Some? then
         r.rollback.NotStarted? && s.protection.Some? && s.replacement.value.previousProtection == s.protection
       else
         s.protection.None? || (s.request.mode == previous.mode && s.request.profile == previous.profile)
  }

  lemma AdmittedReady(a: World, b: World, request: Request, id: string, plans: (TunPlan, TunPlan))
    requires Inv(a) && Connectable(a, request, id, plans) && Became(a, b, Admitted(a, request, id)) && ValidId(id)
    ensures ConnectReady(b, plans.0, plans.1)
  {
  }

  lemma StillConnectable(a: World, b: World, request: Request, id: string, plans: (TunPlan, TunPlan))
    requires Connectable(a, request, id, plans) && b.record == a.record && b.boot == a.boot && b.tables == a.tables
    ensures Connectable(b, request, id, plans)
  {
  }

  /** What reconciliation without faults makes of a record: the replacement given up, the envelope armed. */
  function Settled(s: Session): Session {
    if s.replacement.Some? then Restored(s) else if s.protection.Some? then Rearmed(s) else s
  }

  /** The plans suit this record: its envelope is the one asked for, can be replaced, or can be put up. */
  predicate Suits(w: World, s: Session, plans: (TunPlan, TunPlan)) {
    if s.protection.None? then RoomFor(w, s.id) && ValidInterface(plans.1.tun) && Targeted(plans.1)
    else
      var p := s.protection.value;
      if !s.request.handoff.ReplacePodlaz? then AlreadyFor(p, plans.1)
      else s.request.mode == "tun" && p.state.Armed? && Fits(p, plans.0) && Fits(p, plans.1)
  }

  /** Without faults, startup resumes the session from here. */
  predicate Resumes(w: World, plans: (TunPlan, TunPlan)) {
    && Present(w) && Resumable(w.record.value) && w.record.value.epoch < EPOCH_LIMIT - 1
    && Suits(w, Settled(w.record.value), plans)
  }

  /** Reconciliation settled the record of `a`; without an envelope there was nothing to do. */
  predicate SettledFrom(a: World, b: World) {
    && Present(a) && b.record == Some(Settled(a.record.value)) && b.flushes == a.flushes
    && (a.record.value.protection.None? ==> b == a)
  }

  /** The recorded session can be connected again under one more epoch. */
  ghost predicate Replayable(w: World, id: string, plans: (TunPlan, TunPlan)) {
    && Present(w) && w.record.value.intent.Resume? && w.record.value.epoch < EPOCH_LIMIT - 1
    && Connectable(w, w.record.value.request, id, plans)
  }

  lemma SettledConnectable(a: World, b: World, id: string, plans: (TunPlan, TunPlan))
    requires Inv(a) && Inv(b) && Resumes(a, plans) && SettledFrom(a, b) && Converged(a, b) && b.boot == a.boot
    ensures b.record.value.intent.Resume? && b.record.value.epoch == a.record.value.epoch
    ensures Connectable(b, b.record.value.request, id, plans)
  {
  }

  lemma NextEpoch(a: World, b: World, id: string, plans: (TunPlan, TunPlan))
    requires Present(a) && Connectable(a, a.record.value.request, id, plans)
    requires Became(a, b, a.record.value.(epoch := a.record.value.epoch + 1))
    ensures Connectable(b, a.record.value.request, id, plans)
  {
  }

  /** A misfit replacement is recorded, refused before anything moves, and given up again. */
  lemma MisfitGoesBack(a: World, b: World, request: Request, id: string, plan: TunPlan)
    requires Inv(a) && Misfit(a, request, plan) && Became(a, b, Admitted(a, request, id))
    ensures Rebuffed(b, plan) && MayGoBack(b, a.record.value.request, Refused(NotStarted, false))
    ensures Rewound(b).record == a.record
  {
  }

  /** The envelope for exactly this plan is armed, recorded and live. */
  ghost predicate Serves(w: World, plan: TunPlan) {
    VerifiedNow(w) && Authorized(w, plan.tun, Target(plan))
  }

  /** Since `a` the persisted composition was verified exactly: it still is live unless somebody flushed it. */
  ghost predicate VerifiedSince(a: World, b: World) {
    && Standing(b) && b.record.value.protection.value.state.Armed? && NoPrevious(b.record.value.protection.value)
    && (a.flushes == b.flushes ==> VerifiedNow(b))
  }

  /** Retargeting loses no composition: the transition left behind is one the record keeps. */
  ghost predicate Retargetable(s: Session)
    requires Replacing(s)
  {
    PlansOf(Transitions(s.protection.value)) <= {PlanOf(Previous(s)), PlanOf(s.protection.value)}
  }

  /** The authority is armed and now admits exactly the extra peers as well. */
  ghost predicate WidenedTo(a: World, b: World, extra: set<Peer>) {
    && MidReplacement(a) && MidReplacement(b)
    && b.record.value.protection.value.version == a.record.value.protection.value.version
    && b.record.value.protection.value.state.Armed? && NoPrevious(b.record.value.protection.value)
    && b.record.value.protection.value.tun == a.record.value.protection.value.tun
    && Peers(b.record.value.protection.value) == Peers(a.record.value.protection.value) + extra
  }

  /** A replacement in progress stays so, with the same way back. */
  ghost predicate KeepsReplacement(a: World, b: World) {
    && (MidReplacement(a) ==> MidReplacement(b) && b.record.value.replacement == a.record.value.replacement)
    && (!MidReplacement(a) ==> !MidReplacement(b))
  }

  predicate SameIntent(a: World, b: World) {
    a.record.Some? && b.record.Some? && a.record.value.intent == b.record.value.intent && a.flushes == b.flushes
  }

  /** Startup may resume from this record. */
  predicate Resumable(s: Session) {
    s.intent.Resume? && (s.protection.Some? ==> Resting(s.protection.value))
  }

  /** The replacement is over: the new request stands, and may not silently replace anything again. */
  function CommittedFrom(s: Session): Session {
    if s.replacement.None? then s
    else s.(replacement := None, request := Request(s.request.mode, s.request.profile, Block))
  }

  function Rearmed(s: Session): Session
    requires s.protection.Some?
  {
    s.(protection := Some(s.protection.value.(state := Armed)))
  }

  /** The record itself, or newly armed outside a replacement. */
  predicate KnownOrRearmed(w: World, s: Session) {
    Known(w, s) || (s.protection.Some? && s.replacement.None? && Known(w, Rearmed(s)))
  }

  /** What reconciliation may turn a record into: itself or the restored one, possibly newly armed. */
  predicate Reconciled(s: Session, w: World) {
    KnownOrRearmed(w, s) || KnownOrRearmed(w, Restored(s))
  }

  /** No replacement is open, and since `a` the live envelope was seen to be the persisted one. */
  ghost predicate Converged(a: World, w: World) {
    Present(w) ==>
      && w.record.value.replacement.None?
      && (w.record.value.protection.Some? ==>
            Standing(w) && (a.flushes == w.flushes ==> LiveIs(w, Table(w), PlanOf(w.record.value.protection.value))))
  }

  /** The record, of whatever boot, claims this table name. */
  predicate Claims(w: World, name: string) {
    w.record.Some? && w.record.value.protection.Some? && w.record.value.protection.value.table == name
  }

  /** No envelope authority is left in the record. */
  predicate Unprotected(w: World) {
    Present(w) ==> w.record.value.protection.None?
  }

  /** Same session, same epoch, and the same intent unless its disconnect was asked for. */
  predicate SameLife(s: Session, t: Session) {
    s.id == t.id && s.epoch == t.epoch && (t.intent == s.intent || (s.intent.Resume? && t.intent.Disconnect?))
  }

  /** Boot, data plane and what connects asked for are untouched. */
  predicate SameHost(a: World, b: World) {
    a.boot == b.boot && a.flushes <= b.flushes && a.residue == b.residue && a.asked == b.asked
  }

  predicate SameRuleset(a: World, b: World) {
    a.boot == b.boot && a.flushes <= b.flushes && a.requested == b.requested && a.asked == b.asked
  }

  /** A replacement that has not moved yet: its way back is where it stands. */
  ghost predicate JustBegun(w: World) {
    && MidReplacement(w) && Unmoved(w.record.value)
    && w.requested == Peers(Previous(w.record.value)) && Wide(w.record.value)
  }

  /** An armed target is the live composition, or nothing is live. */
  ghost predicate CommitSafe(w: World)
    requires MidReplacement(w)
  {
    var p := w.record.value.protection.value;
    p.state.Armed? && NoPrevious(p) ==> p.table !in w.tables || LiveIs(w, p.table, PlanOf(p))
  }

  /** If a replacement is open, the live envelope is the previous one or absent. */
  ghost predicate RestoreReady(w: World) {
    MidReplacement(w) ==> Table(w) !in w.tables || LiveIs(w, Table(w), PlanOf(Previous(w.record.value)))
  }

  /** Every composition the record admits to is the previous one. */
  ghost predicate OnlyPrevious(s: Session)
    requires Replacing(s)
  {
    Candidates(s) == {PlanOf(Previous(s))}
  }

  /** The same, as it can be read off the record. */
  predicate OnlyPreviousListed(s: Session) {
    Replacing(s) ==> forall i :: 0 <= i < |Authorities(s)| ==> PlanOf(Authorities(s)[i]) == PlanOf(Previous(s))
  }

  lemma ListedIsOnly(s: Session)
    requires Replacing(s)
    ensures OnlyPreviousListed(s) <==> OnlyPrevious(s)
  {
    var a := Authorities(s);
    assert forall i :: 0 <= i < |a| ==> PlanOf(a[i]) in PlansOf(a);
    assert a[0] == Previous(s);
  }

  datatype Reason = Explicit | TerminalStop | Restart

  /** A disconnect declares a disconnect and a terminal stop the end, but the end is never taken back. */
  function Declares(reason: Reason, current: Intent): Intent {
    match reason
    case Explicit => if current.Terminal? then Terminal else Disconnect
    case TerminalStop => Terminal
    case Restart => current
  }

  /** The session of this boot, if it is still recorded, is the one it was. */
  predicate Lives(a: World, b: World) {
    Present(a) && Present(b) ==> SameLife(a.record.value, b.record.value)
  }

  /** The data plane was cleaned under the declared intent only, and no other intent was ever recorded. */
  predicate Declared(a: World, b: World, reason: Reason) {
    Present(a) && Present(b) ==>
      var before, after := a.record.value.intent, b.record.value.intent;
      && (after == Declares(reason, before) || SameLife(a.record.value, b.record.value))
      && (a.residue && !b.residue && !reason.Restart? ==> after == Declares(reason, before))
  }

  /** The session ended properly: nothing of Podlaz is left and the remaining network was verified. */
  ghost predicate Finished(w: World) {
    w.proven && !w.residue && forall n :: n in w.tables ==> !w.tables[n].ours
  }

  datatype Command =
    | Connect(
        request: Request, ids: (string, string), plans: (TunPlan, TunPlan), back: (TunPlan, TunPlan), superseded: bool)
    | Teardown(reason: Reason)
    | Disarm
    | ContinueTeardown
    | ResumeSession(ids: (string, string), plans: (TunPlan, TunPlan), back: (TunPlan, TunPlan))
    | Restart(script: seq<Turn>)
    | Reboot(boot: string)
    | Flush
    | AddForeignTable(name: string, plan: Plan)

  function PlansIn(c: Command): seq<TunPlan> {
    match c
    case Connect(_, _, plans, back, _) => [plans.0, plans.1, back.0, back.1]
    case ResumeSession(_, plans, back) => [plans.0, plans.1, back.0, back.1]
    case _ => []
  }

  ghost predicate AskedBy(plan: TunPlan, commands: seq<Command>) {
    exists i :: 0 <= i < |commands| && plan in PlansIn(commands[i])
  }

  /** Nothing was asked for since but these plans. */
  ghost predicate AskedAmong(before: seq<TunPlan>, after: seq<TunPlan>, plans: seq<TunPlan>) {
    before <= after && forall i :: |before| <= i < |after| ==> after[i] in plans
  }

  datatype Rollback = NotStarted | Completed | Failed

  datatype ConnectResult = Connected | Refused(rollback: Rollback, incomplete: bool)

  // ---------------------------------------------------------------- lemmas about single steps

  lemma SwappedCandidate(w: World)
    requires Inv(w) && MidReplacement(w)
    ensures Names(w, Table(w)) && PlanOf(w.record.value.protection.value) in Candidates(w.record.value)
    ensures PlanOf(Previous(w.record.value)) in Candidates(w.record.value) && Previous(w.record.value).table == Table(w)
  {
    PlansOfAuthorities(w.record.value);
  }

  lemma FreshKeeps(w: World, s: Session)
    requires Inv(w) && w.record.None? && ValidSession(s) && s.boot == w.boot && s.protection.None?
    requires s.replacement.None?
    ensures SafeWrite(w, s)
  {
    WriteKeeps(w, s);
  }

  /** What was known of the record before a drift, or before its protection was set, is known after. */
  lemma KnownAfter(a: World, b: World, s: Session, p: Option<Protection>)
    requires Known(a, s)
    ensures Drift(a, b) ==> Known(b, s)
    ensures Drift(WithProtection(a, p), b) ==> Known(b, s.(protection := p))
  {
  }

  lemma StandingStays(a: World, b: World)
    requires Inv(a) && Standing(a) && Untouched(a, b) && Present(b)
    requires b.record.value.protection == a.record.value.protection
    ensures Standing(b)
    ensures Table(a) in a.tables && a.flushes == b.flushes ==>
      LiveIs(b, Table(b), PlanOf(b.record.value.protection.value))
  {
    assert ValidTable(Table(a)) && Fades(a, b, Table(a));
  }

  lemma ReadyStays(a: World, b: World)
    requires Inv(a) && RestoreReady(a) && Drift(a, b)
    ensures RestoreReady(b)
  {
    DriftRecord(a, b);
    if MidReplacement(a) { assert ValidTable(Table(a)) && Table(b) == Table(a) && Fades(a, b, Table(a)); }
  }

  lemma OnlyPreviousReady(w: World)
    requires Inv(w) && (MidReplacement(w) ==> OnlyPrevious(w.record.value))
    ensures RestoreReady(w)
  {
    if MidReplacement(w) && Table(w) in w.tables { LiveIsCandidate(w); }
  }

  lemma UnmovedReady(w: World)
    requires Inv(w) && (MidReplacement(w) ==> Unmoved(w.record.value))
    ensures RestoreReady(w)
  {
    if MidReplacement(w) { GateExact(w); }
    OnlyPreviousReady(w);
  }

  /** The records recovery of a replacement moves between. */
  predicate AmongReconciled(s: Session, t: Session) {
    Raised(s, t) || Raised(Restored(s), t) || (Restored(s).protection.Some? && Raised(Rearmed(Restored(s)), t))
  }

  /** The replacement is cleared, the previous request restored and the previous composition live. */
  ghost predicate RecoveredTo(s: Session, w: World) {
    && Present(w) && Replacing(s)
    && w.record.value.replacement.None? && w.record.value.request == s.replacement.value.previousRequest
    && LiveIs(w, Previous(s).table, PlanOf(Previous(s)))
  }

  /** A resumable replacement goes back to a resumable record, and recovering again stays among the same records. */
  lemma ReconciledTwice(s: Session, t: Session, w: World)
    requires Replacing(s) && Resting(s.protection.value) && Tidy(s) && AmongReconciled(s, t)
    ensures t.intent.Resume? ==> Resumable(t)
    ensures Reconciled(t, w) ==> Reconciled(s, w) && AmongReconciled(s, w.record.value)
  {
  }

  lemma ConvergedBack(a: World, b: World, c: World, s: Session)
    requires Inv(b) && Known(b, s) && Replacing(s) && RestoreReady(b) && Quiet(b, c) && Known(c, Restored(s))
    requires a.flushes <= b.flushes
    requires a.flushes == b.flushes ==> LiveIs(b, Previous(s).table, PlanOf(Previous(s)))
    ensures Converged(a, c)
  {
    assert ValidTable(Table(b)) && Previous(s).table == Table(b) && Fades(b, c, Table(b));
  }

  lemma StillUntouched(a: World, b: World, c: World)
    requires Untouched(a, b) && c.tables == b.tables && c.flushes == b.flushes
    ensures Untouched(a, c)
  {
    forall n ensures Fades(a, c, n) { assert Fades(a, b, n); }
  }

  lemma ConfirmedSince(a: World, b: World, next: Protection)
    requires Protected(a) && Resting(a.record.value.protection.value)
    requires next == Verified(a.record.value.protection.value)
    requires LiveIs(a, Table(a), PlanOf(a.record.value.protection.value)) && ValidTable(Table(a))
    requires Drift(WithProtection(a, Some(next)), b)
    ensures VerifiedSince(a, b)
  {
    assert Fades(WithProtection(a, Some(next)), b, Table(a));
    assert PlanOf(next) == PlanOf(a.record.value.protection.value);
  }

  lemma WideAfter(w: World, s: Session, t: Session)
    requires Replacing(s) && Replacing(t)
    ensures Known(w, s) && Wide(s) ==> Wide(w.record.value)
    ensures Known(w, t) && Wide(t) ==> Wide(w.record.value)
  {
    if Known(w, s) { RaisedWide(s, w.record.value); }
    if Known(w, t) { RaisedWide(t, w.record.value); }
  }

  /** The records a widening moves through. */
  predicate WideningFrom(s: Session, next: Protection, w: World) {
    var moved := s.(protection := Some(next));
    Known(w, s) || Known(w, moved) || Known(w, VerifiedRecord(moved))
  }

  lemma WidenedWide(w: World, s: Session, next: Protection)
    requires Replacing(s) && NoPrevious(s.protection.value) && Retargets(s.protection.value, next)
    requires Peers(s.protection.value) <= Peers(next) && WideningFrom(s, next, w)
    ensures Wide(s) ==> Wide(w.record.value)
  {
    if Wide(s) {
      var moved := s.(protection := Some(next));
      RetargetWide(s, next);
      VerifiedWide(moved);
      WideAfter(w, s, moved);
      WideAfter(w, moved, VerifiedRecord(moved));
    }
  }

  lemma AskedTargets(before: TunPlan, after: TunPlan)
    ensures Target(before) <= Targets([before, after]) && Target(after) <= Targets([before, after])
  {
    assert before in [before, after] && after in [before, after];
  }

  class Host {
    var world: World
    var script: seq<Turn>
    var alive: bool
    var stopping: bool             // explicitStop: the shutdown thread has declared a stop
    ghost var history: seq<World>
    ghost var anchor: seq<World>   // a past that no method but Run may choose: history only grows beyond it

    /** Every state this machine went through is safe, and so was every step. */
    ghost predicate Valid()
      reads this
    {
      history != [] && history[|history| - 1] == world && SafeHistory(history) && anchor <= history
    }

    lemma Here()
      requires Valid()
      ensures Inv(world)
    {
      Runs.ChainAt(Inv, Allowed, history, |history| - 1);
    }

    /** No more faults are coming, and nobody interferes. */
    ghost predicate Healthy()
      reads this
    {
      alive && script == []
    }

    /** Healthy, and no stop was declared in between. */
    twostate predicate Undisturbed()
      reads this
    {
      Healthy() && stopping == old(stopping)
    }

    constructor (boot: string, tables: map<string, Live>)
      requires boot != "" && forall n :: n in tables ==> !tables[n].ours
      ensures Valid() && Healthy() && world == World(None, tables, false, false, boot, 0, [], {})
    {
      world := World(None, tables, false, false, boot, 0, [], {});
      script, alive, stopping := [], true, false;
      history := [World(None, tables, false, false, boot, 0, [], {})];
      anchor := [];
    }

    /** Records a change of the machine. */
    method Note(next: World)
      requires Valid() && SafeStep(world, next)
      modifies `world, `history
      ensures Valid() && world == next
    {
      SafeStepIff(world, next);
      Runs.ChainGrows(Inv, Allowed, history, next);
      world := next;
      history := history + [next];
    }

    /** Something happens meanwhile; the record cannot be written while its store is locked. */
    method Meanwhile(e: Event, locked: bool)
      requires Valid()
      modifies `world, `history, `stopping
      ensures Valid() && Drift(old(world), world) && (locked ==> world.record == old(world.record))
    {
      Here();
      match e
      case RulesetFlushed =>
        FlushKeeps(world);
        Note(Flushed(world));
      case TableAppeared(name, plan) =>
        if name !in world.tables && !ValidTable(name) {
          JoinKeeps(world, name, plan);
          Note(Joined(world, name, plan));
        }
      case StopDeclared =>
        if !locked {
          stopping := true;
          DisarmKeeps(world);
          Note(Disarmed(world));
        }
    }

    /** Draws the next turn; a crashed daemon does nothing any more. */
    method Draw(locked: bool) returns (o: Outcome)
      requires Valid()
      modifies `world, `history, `script, `alive, `stopping
      ensures Valid() && Drift(old(world), world) && (locked ==> world.record == old(world.record))
      ensures alive == (old(alive) && !o.CrashBefore? && !o.CrashAfter?)
      ensures old(Healthy()) ==> o.Fine? && Undisturbed() && world == old(world)
      ensures !old(alive) ==> o.CrashBefore?
    {
      if !alive { return CrashBefore; }
      if script == [] { return Fine; }
      var turn := script[0];
      script := script[1..];
      for i := 0 to |turn.events|
        invariant Valid() && Drift(old(world), world) && (locked ==> world.record == old(world.record))
      {
        ghost var before := world;
        Meanwhile(turn.events[i], locked);
        DriftOn(old(world), before, world);
      }
      o := turn.outcome;
      alive := !o.CrashBefore? && !o.CrashAfter?;
    }

    /** A step that only reads, or runs outside this model. */
    method Foreign() returns (ok: bool)
      requires Valid()
      modifies `world, `history, `script, `alive, `stopping
      ensures Valid() && Drift(old(world), world)
      ensures ok ==> alive
      ensures old(Healthy()) ==> ok && Undisturbed() && world == old(world)
    {
      var o := Draw(false);
      ok := o.Fine?;
    }

    predicate Effective(o: Outcome) {
      o.Fine? || o.ErrorAfter? || o.CrashAfter?
    }

    // -------------------------------------------------------------- durable store

    /**
     Writes the record while its store is locked. The validator never refuses: every caller hands over
     an accepted one.
     */
    method Save(s: Session) returns (ok: bool)
      requires Valid() && SafeWrite(world, s)
      modifies `world, `history, `script, `alive, `stopping
      ensures Valid() && Quiet(old(world), world)
      ensures world.record == old(world.record) || world.record == Some(s)
      ensures ok ==> world.record == Some(s) && alive
      ensures old(Healthy()) ==>
        ok && Undisturbed() && world == old(world).(record := Some(s))
    {
      var o := Draw(true);
      DriftWrite(old(world), world, s);
      if Effective(o) {
        ghost var before := world;
        Note(world.(record := Some(s)));
        StillUntouched(old(world), before, world);
      }
      ok := o.Fine?;
    }

    /** Removes the record while its store is locked. */
    method Discard() returns (ok: bool)
      requires Valid() && world.record.Some?
      requires (world.record.value.protection.None? || world.record.value.boot != world.boot)
      modifies `world, `history, `script, `alive, `stopping
      ensures Valid() && Quiet(old(world), world)
      ensures world.record == old(world.record) || world.record.None?
      ensures ok ==> world.record.None? && alive
      ensures old(Healthy()) ==>
        ok && Undisturbed() && world == old(world).(record := None)
    {
      var o := Draw(true);
      if Effective(o) {
        ghost var before := world;
        CanDiscard();
        Note(world.(record := None));
        StillUntouched(old(world), before, world);
      }
      ok := o.Fine?;
    }

    lemma CanDiscard()
      requires Valid() && world.record.Some?
      requires (world.record.value.protection.None? || world.record.value.boot != world.boot)
      ensures SafeStep(world, world.(record := None))
    {
      Here();
      SafeStepIff(world, world.(record := None));
    }

    /** Reads the record; one from an earlier boot is discarded. */
    method Load() returns (r: Loaded)
      requires Valid()
      modifies `world, `history, `script, `alive, `stopping
      ensures Valid() && Quiet(old(world), world)
      ensures old(Present(world)) ==> Drift(old(world), world) && !r.Absent?
      ensures !old(Present(world)) ==>
        !Present(world) && !r.Found? && (world.record == old(world.record) || world.record.None?)
      ensures r.Found? ==> alive && world.record == Some(r.session) && r.session.boot == world.boot
      ensures r.Absent? ==> world.record.None?
      ensures old(Healthy()) ==> !r.Unreadable? && Undisturbed() && (old(Present(world)) ==> world == old(world))
      ensures old(Healthy()) ==>
        (world == old(world) || world == old(world).(record := None))
    {
      var ok := Foreign();
      if !ok { return Unreadable; }
      if world.record.None? { return Absent; }
      if world.record.value.boot == world.boot { return Found(world.record.value); }
      ghost var before := world;
      var gone := Discard();
      UntouchedOn(old(world), before, world);
      return if gone then Absent else Unreadable;
    }

    /** Re-reads the record under the store lock and sets its protection, leaving everything else as found. */
    method SetProtection(p: Option<Protection>) returns (ok: bool)
      requires Valid() && SafeProtect(world, p)
      modifies `world, `history, `script, `alive, `stopping
      ensures Valid() && Quiet(old(world), world)
      ensures Drift(old(world), world) || Drift(WithProtection(old(world), p), world)
      ensures ok ==> Drift(WithProtection(old(world), p), world) && alive
      ensures old(Healthy()) ==> ok && Undisturbed() && world == WithProtection(old(world), p)
    {
      var o := Draw(false);
      DriftProtect(old(world), world, p);
      if Effective(o) {
        ghost var before := world;
        Note(WithProtection(world, p));
        StillUntouched(old(world), before, world);
      }
      ok := o.Fine?;
    }

    // -------------------------------------------------------------- nftables

    method NftExists(table: string) returns (r: Option<bool>)
      requires Valid()
      modifies `world, `history, `script, `alive, `stopping
      ensures Valid() && Drift(old(world), world)
      ensures r.Some? ==> r.value == (table in world.tables) && alive
      ensures old(Healthy()) ==> r.Some? && Undisturbed() && world == old(world)
    {
      var ok := Foreign();
      return if ok then Some(table in world.tables) else None;
    }

    /** Succeeds only on the exact live composition. */
    method NftVerify(plan: Plan) returns (ok: bool)
      requires Valid()
      modifies `world, `history, `script, `alive, `stopping
      ensures Valid() && Drift(old(world), world)
      ensures ok ==> LiveIs(world, plan.table, plan) && alive
      ensures old(Healthy()) ==> ok == LiveIs(world, plan.table, plan) && Undisturbed() && world == old(world)
    {
      ok := Foreign();
      ok := ok && plan.table in world.tables && world.tables[plan.table].plan == plan;
    }

    /** `create table`: refuses an existing table. */
    method NftApply(plan: Plan) returns (ok: bool)
      requires Valid() && SafeStep(world, Mounted(world, plan))
      modifies `world, `history, `script, `alive, `stopping
      ensures Valid() && (Drift(old(world), world) || Drift(Mounted(old(world), plan), world))
      ensures ok ==> LiveIs(world, plan.table, plan) && alive
      ensures old(Healthy()) && plan.table !in old(world.tables) ==>
        ok && Undisturbed() && world == Mounted(old(world), plan)
    {
      var o := Draw(false);
      DriftMountSafe(old(world), world, plan);
      if plan.table in world.tables { return false; }
      if Effective(o) { Note(Mounted(world, plan)); }
      ok := o.Fine?;
    }

    /** One atomic batch, admitted only against the exact composition being replaced. */
    method NftReplace(current: Plan, next: Plan) returns (ok: bool)
      requires Valid() && SafeStep(world, Mounted(world, next))
      modifies `world, `history, `script, `alive, `stopping
      ensures Valid() && (Drift(old(world), world) || Drift(Mounted(old(world), next), world))
      ensures ok ==> LiveIs(world, next.table, next) && alive
      ensures old(Healthy() && LiveIs(world, current.table, current)) && current.table == next.table ==>
        ok && Undisturbed() && world == Mounted(old(world), next)
    {
      var o := Draw(false);
      DriftMountSafe(old(world), world, next);
      if current.table != next.table || current.table !in world.tables || world.tables[current.table].plan != current {
        return false;
      }
      if Effective(o) { Note(Mounted(world, next)); }
      ok := o.Fine?;
    }

    method NftRemove(plan: Plan) returns (ok: bool)
      requires Valid() && Removable(world, plan.table)
      modifies `world, `history, `script, `alive, `stopping
      ensures Valid() && (Drift(old(world), world) || Drift(Unmounted(old(world), plan.table), world))
      ensures ok ==> plan.table !in world.tables && alive
      ensures old(Healthy() && LiveIs(world, plan.table, plan)) ==>
        ok && Undisturbed() && world == Unmounted(old(world), plan.table)
    {
      Here();
      var o := Draw(false);
      DriftUnmountSafe(old(world), world, plan);
      if plan.table !in world.tables { return o.Fine?; }
      if world.tables[plan.table].plan != plan { return false; }
      if Effective(o) { Note(Unmounted(world, plan.table)); }
      ok := o.Fine?;
    }

    // -------------------------------------------------------------- allocation

    /** The first of sixteen candidate names that no live table carries. */
    method AllocateTable(id: string) returns (r: Option<string>)
      requires Valid() && ValidId(id)
      modifies `world, `history, `script, `alive, `stopping
      ensures Valid() && Drift(old(world), world)
      ensures r.Some? ==> ValidTable(r.value) && r.value !in world.tables
      ensures r.Some? ==>
        exists k :: 0 <= k < CANDIDATE_LIMIT && AllTaken(old(world), id, k) && r.value == CandidateTable(id, k)
      ensures old(Healthy()) ==>
        Undisturbed() && world == old(world) && (r.None? <==> AllTaken(world, id, CANDIDATE_LIMIT))
    {
      for k := 0 to CANDIDATE_LIMIT
        invariant Valid() && Drift(old(world), world)
        invariant old(Healthy()) ==> Undisturbed() && world == old(world)
        invariant AllTaken(old(world), id, k)
      {
        ghost var before := world;
        CandidateValid(id, k);
        var occupied := NftExists(CandidateTable(id, k));
        DriftOn(old(world), before, world);
        if occupied.None? { return None; }
        if !occupied.value { return Some(CandidateTable(id, k)); }
        assert Fades(old(world), world, CandidateTable(id, k));
      }
      return None;
    }

    // -------------------------------------------------------------- privacyEnvelopeLifecycle

    /** The record's authorities are all accepted, so rebuilding a composition from one never fails. */
    method Rebuild(s: Session, p: Protection) returns (ok: bool)
      requires Valid() && Known(world, s) && s.protection.Some?
      requires p == s.protection.value || (Replacing(s) && p == Previous(s))
      ensures ok
    {
      Here();
      ok := PlanFromAuthority(p).Ok?;
    }

    lemma CanRetarget(s: Session, next: Protection)
      requires Valid() && Known(world, s) && Replacing(s) && Resting(s.protection.value) && Retargetable(s)
      requires MovesTo(s.protection.value, next, Peers(next)) && Peers(next) <= world.requested
      ensures SafeProtect(world, Some(next))
    {
      Here();
      var r := world.record.value;
      RaisedCandidates(s, r);
      RetargetKeepsAuthority(r, next);
      RetargetKeeps(world, next);
    }

    lemma CanMount(s: Session)
      requires Valid() && Known(world, s) && s.protection.Some?
      ensures SafeStep(world, Mounted(world, PlanOf(s.protection.value)))
      ensures Replacing(s) ==>
        SafeStep(world, Mounted(world, PlanOf(Previous(s)))) && Previous(s).table == s.protection.value.table
    {
      Here();
      if Replacing(s) {
        SwappedCandidate(world);
        MountKeeps(world, PlanOf(Previous(s)));
      }
      MountKeeps(world, PlanOf(s.protection.value));
    }

    /** Durable intent first, then the atomic swap: replaceProtection and replaceMarkedProtection. */
    method SwapProtection(s: Session, next: Protection) returns (ok: bool)
      requires Valid() && Known(world, s) && Replacing(s)
      requires SafeProtect(world, Some(next)) && next.table == s.protection.value.table
      modifies `world, `history, `script, `alive, `stopping
      ensures Valid() && SameMachine(old(world), world)
      ensures Known(world, s) || Known(world, s.(protection := Some(next)))
      ensures ok ==> Known(world, s.(protection := Some(next))) && LiveIs(world, next.table, PlanOf(next)) && alive
      ensures old(Healthy() && LiveIs(world, Table(world), PlanOf(s.protection.value))) ==>
        ok && Undisturbed() && SameIntent(old(world), world)
    {
      var current := PlanOf(s.protection.value);
      ok := Rebuild(s, s.protection.value);
      if !ok { return false; }
      ok := SetProtection(Some(next));
      KnownAfter(old(world), world, s, Some(next));
      if !ok { return false; }
      var moved := s.(protection := Some(next));
      CanMount(moved);
      ok := NftReplace(current, PlanOf(next));
    }

    /** Confirms the live table is exactly the persisted composition and records it as armed. */
    method Verify() returns (ok: bool)
      requires Valid()
      modifies `world, `history, `script, `alive, `stopping
      ensures Valid() && Quiet(old(world), world)
      ensures !old(Present(world)) ==> !ok && !Present(world)
      ensures old(Present(world)) ==>
        || Known(world, old(world).record.value)
        || (old(Protected(world)) && Known(world, VerifiedRecord(old(world).record.value)))
      ensures ok ==> old(Protected(world)) && Known(world, VerifiedRecord(old(world).record.value)) && alive
      ensures ok ==> VerifiedSince(old(world), world)
      ensures old(Healthy()) ==> Undisturbed() && (old(Verifiable(world)) ==> ok && SameIntent(old(world), world))
    {
      var loaded := Load();
      if !loaded.Found? || loaded.session.protection.None? { return false; }
      ghost var read := world;
      ok := VerifyRead(loaded.session);
      UntouchedOn(old(world), read, world);
    }

    method VerifyRead(s: Session) returns (ok: bool)
      requires Valid() && Known(world, s) && s.protection.Some?
      modifies `world, `history, `script, `alive, `stopping
      ensures Valid() && Quiet(old(world), world)
      ensures Known(world, s) || Known(world, VerifiedRecord(s))
      ensures ok ==> Known(world, VerifiedRecord(s)) && alive && VerifiedSince(old(world), world)
      ensures old(Healthy()) ==> Undisturbed() && (old(Verifiable(world)) ==> ok && SameIntent(old(world), world))
    {
      var p := s.protection.value;
      if p.state.Removing? || p.state.Unarmed? { return false; }
      ok := Rebuild(s, p);
      if !ok { return false; }
      ok := NftVerify(PlanOf(p));
      KnownAfter(old(world), world, s, None);
      if !ok || (p.state.Armed? && NoPrevious(p)) { return; }
      ghost var seen := world;
      ok := Confirm(s);
      UntouchedOn(old(world), seen, world);
    }

    lemma CanConfirm(s: Session)
      requires Valid() && Known(world, s) && s.protection.Some? && Resting(s.protection.value)
      requires LiveIs(world, s.protection.value.table, PlanOf(s.protection.value))
      ensures SafeProtect(world, Some(Verified(s.protection.value))) && ValidTable(s.protection.value.table)
    {
      Here();
      VerifiedKeeps(world);
    }

    /** Records a composition just seen live as armed, without the one it came from. */
    method Confirm(s: Session) returns (ok: bool)
      requires Valid() && Known(world, s) && s.protection.Some? && Resting(s.protection.value)
      requires LiveIs(world, s.protection.value.table, PlanOf(s.protection.value))
      modifies `world, `history, `script, `alive, `stopping
      ensures Valid() && Quiet(old(world), world)
      ensures Known(world, s) || Known(world, VerifiedRecord(s))
      ensures ok ==> Known(world, VerifiedRecord(s)) && alive && VerifiedSince(old(world), world)
      ensures old(Healthy()) ==> ok && Undisturbed() && SameIntent(old(world), world)
    {
      var next := Verified(s.protection.value);
      CanConfirm(s);
      ok := SetProtection(Some(next));
      KnownAfter(old(world), world, s, Some(next));
      if ok { ConfirmedSince(old(world), world, next); }
    }

    lemma CanAllocate(s: Session, p: Protection)
      requires Valid() && Known(world, s) && s.protection.None?
      requires PlanFromAuthority(p).Ok? && NoPrevious(p) && p.state.Arming? && p.table !in world.tables
      ensures SafeProtect(world, Some(p))
    {
      Here();
      AllocateKeeps(world, p);
    }

    /** First protection of a session: allocate, persist the authority, then create the table. */
    method ArmFresh(s: Session, tun: string, version: nat, bootstrap: seq<string>, marks: seq<U32>) returns (ok: bool)
      requires Valid() && Known(world, s) && s.protection.None?
      modifies `world, `history, `script, `alive, `stopping
      ensures Valid() && SameMachine(old(world), world) && !MidReplacement(world)
      ensures ok ==> Authorized(world, tun, PeersOf(bootstrap, marks))
      ensures old(Healthy() && RoomFor(world, s.id)) && ValidInterface(tun) && Composable(version, bootstrap, marks) ==>
        ok && Undisturbed() && Verifiable(world) && SameIntent(old(world), world)
    {
      FreshIsSettled(s);
      if !ValidInterface(tun) { return false; }
      var table := AllocateTable(s.id);
      KnownAfter(old(world), world, s, None);
      if table.None? { return false; }
      var p := Protection(Arming, version, "inet", table.value, tun, bootstrap, [], marks, []);
      if PlanFromAuthority(p).Err? { return false; }
      CanAllocate(s, p);
      ok := PutUp(s, p);
    }

    /** Without protection there is no replacement either. */
    lemma FreshIsSettled(s: Session)
      requires Valid() && Known(world, s) && s.protection.None?
      ensures s.replacement.None? && ValidId(s.id)
    {
      Here();
    }

    /** The authority is durable before its table exists. */
    method PutUp(s: Session, p: Protection) returns (ok: bool)
      requires Valid() && Known(world, s) && s.replacement.None? && SafeProtect(world, Some(p))
      modifies `world, `history, `script, `alive, `stopping
      ensures Valid() && SameMachine(old(world), world) && !MidReplacement(world)
      ensures ok ==> Known(world, s.(protection := Some(p)))
      ensures old(Healthy() && p.table !in world.tables) ==>
        ok && Undisturbed() && LiveIs(world, p.table, PlanOf(p)) && SameIntent(old(world), world)
    {
      ok := SetProtection(Some(p));
      KnownAfter(old(world), world, s, Some(p));
      if !ok { return false; }
      CanMount(s.(protection := Some(p)));
      ok := NftApply(PlanOf(p));
    }

    /** Narrows to the target composition inside a replacement, or puts up the first envelope. */
    method Arm(plan: TunPlan) returns (ok: bool)
      requires Valid() && Target(plan) <= world.requested
      requires MidReplacement(world) ==> Retargetable(world.record.value)
      modifies `world, `history, `script, `alive, `stopping
      ensures Valid() && SameMachine(old(world), world) && KeepsReplacement(old(world), world)
      ensures ok ==> Authorized(world, plan.tun, Target(plan))
      ensures old(Healthy() && ArmReady(world, plan)) ==>
        ok && Undisturbed() && Verifiable(world) && SameIntent(old(world), world)
    {
      var loaded := Load();
      if !loaded.Found? || !loaded.session.intent.Resume? { return false; }
      if loaded.session.protection.Some? {
        ok := ArmExisting(loaded.session, plan);
      } else {
        ok := ArmFirst(loaded.session, plan);
      }
    }

    /** The plan's mark if it has one, and otherwise its server. */
    method ArmFirst(s: Session, plan: TunPlan) returns (ok: bool)
      requires Valid() && Known(world, s) && s.protection.None?
      modifies `world, `history, `script, `alive, `stopping
      ensures Valid() && SameMachine(old(world), world) && !MidReplacement(world)
      ensures ok ==> Authorized(world, plan.tun, Target(plan))
      ensures old(Healthy() && FreshReady(world, plan)) ==>
        ok && Undisturbed() && Verifiable(world) && SameIntent(old(world), world)
    {
      if plan.mark != 0 {
        assert PeersOf([], [plan.mark]) == Target(plan) && ValidMarks([plan.mark]);
        ok := ArmFresh(s, plan.tun, MARKED_VERSION, [], [plan.mark]);
      } else {
        if ParseIPv4(plan.server).Some? { ServerParses(plan); }
        var bootstrap := NormalizeBootstrap([plan.server]);
        if bootstrap.Err? { return false; }
        ServerPeers(bootstrap.value, plan);
        OneEndpoint(bootstrap.value, plan);
        ok := ArmFresh(s, plan.tun, ENDPOINT_VERSION, bootstrap.value, []);
      }
    }

    /** An existing authority is swapped inside a replacement; otherwise it must already match. */
    method ArmExisting(s: Session, plan: TunPlan) returns (ok: bool)
      requires Valid() && Target(plan) <= world.requested && Known(world, s) && s.protection.Some?
      requires Replacing(s) ==> Retargetable(s)
      modifies `world, `history, `script, `alive, `stopping
      ensures Valid() && SameMachine(old(world), world) && KeepsReplacement(old(world), world)
      ensures ok ==> Authorized(world, plan.tun, Target(plan))
      ensures old(Healthy() && ArmReady(world, plan)) ==>
        ok && Undisturbed() && Verifiable(world) && SameIntent(old(world), world)
    {
      var p := s.protection.value;
      Accepted(s);
      var target, same := TargetOf(p, plan);
      if target.None? || p.state.Removing? || p.tun != plan.tun { return false; }
      if same {
        ok := Rebuild(s, p);
        return;
      }
      if s.replacement.None? { return false; }
      ok := Retarget(s, target.value);
    }

    /** Swaps to the target composition inside the replacement. */
    method Retarget(s: Session, next: Protection) returns (ok: bool)
      requires Valid() && Known(world, s) && Replacing(s) && Resting(s.protection.value) && Retargetable(s)
      requires MovesTo(s.protection.value, next, Peers(next)) && Peers(next) <= world.requested
      modifies `world, `history, `script, `alive, `stopping
      ensures Valid() && SameMachine(old(world), world) && KeepsReplacement(old(world), world)
      ensures ok ==> Known(world, s.(protection := Some(next)))
      ensures old(Healthy() && Verifiable(world)) ==>
        ok && Undisturbed() && Verifiable(world) && SameIntent(old(world), world)
    {
      CanRetarget(s, next);
      ok := SwapProtection(s, next);
    }

    lemma Accepted(s: Session)
      requires Valid() && Known(world, s) && s.protection.Some?
      ensures ValidProtection(s.protection.value) && !s.protection.value.state.Unarmed?
      ensures s.replacement.Some? ==> Replacing(s)
    {
      Here();
    }

    /**
     Widens a verified barrier to old and target before the old data plane may go. Whatever the
     script does, the record stays wide if it was, so the old peers stay accepted throughout.
     */
    method PrepareReplacement(plan: TunPlan) returns (ok: bool)
      requires Valid() && Target(plan) <= world.requested
      modifies `world, `history, `script, `alive, `stopping
      ensures Valid() && SameMachine(old(world), world) && KeepsReplacement(old(world), world)
      ensures !MidReplacement(old(world)) ==> !ok && Untouched(old(world), world)
      ensures MidReplacement(old(world)) && Wide(old(world).record.value) ==> Wide(world.record.value)
      ensures ok ==> WidenedTo(old(world), world, Target(plan))
      ensures old(Healthy() && Steady(world, plan)) ==>
        ok && Undisturbed() && VerifiedNow(world) && SameIntent(old(world), world)
      ensures old(Healthy() && Rebuffed(world, plan)) ==> !ok && Undisturbed() && world == old(world)
    {
      var loaded := Load();
      if old(MidReplacement(world)) { RaisedWide(old(world).record.value, world.record.value); }
      if !loaded.Found? || loaded.session.replacement.None? || loaded.session.protection.None? { return false; }
      ok := PrepareRead(loaded.session, plan);
    }

    method PrepareRead(s: Session, plan: TunPlan) returns (ok: bool)
      requires Valid() && Target(plan) <= world.requested && Known(world, s) && s.replacement.Some?
      requires s.protection.Some?
      modifies `world, `history, `script, `alive, `stopping
      ensures Valid() && SameMachine(old(world), world) && KeepsReplacement(old(world), world) && MidReplacement(world)
      ensures Wide(s) ==> Wide(world.record.value)
      ensures ok ==> WidenedTo(old(world), world, Target(plan))
      ensures old(Healthy() && Steady(world, plan)) ==>
        ok && Undisturbed() && VerifiedNow(world) && SameIntent(old(world), world)
      ensures old(Healthy() && Rebuffed(world, plan)) ==> !ok && Undisturbed() && world == old(world)
    {
      var p := s.protection.value;
      Accepted(s);
      RaisedWide(s, world.record.value);
      if !s.intent.Resume? || !p.state.Armed? || p.tun != plan.tun { return false; }
      var union, same := UnionOf(p, plan);
      if union.None? { return false; }
      if same { return true; }
      CanWiden(s, union.value, plan);
      ok := WidenBy(s, union.value, Target(plan));
    }

    method WidenBy(s: Session, next: Protection, extra: set<Peer>) returns (ok: bool)
      requires Valid() && Known(world, s) && Replacing(s) && NoPrevious(s.protection.value)
      requires SafeProtect(world, Some(next))
      requires Retargets(s.protection.value, next) && Peers(next) == Peers(s.protection.value) + extra
      modifies `world, `history, `script, `alive, `stopping
      ensures Valid() && SameMachine(old(world), world) && KeepsReplacement(old(world), world) && MidReplacement(world)
      ensures Wide(s) ==> Wide(world.record.value)
      ensures ok ==> WidenedTo(old(world), world, extra) && VerifiedSince(old(world), world)
      ensures old(Healthy() && Verifiable(world)) ==> ok && Undisturbed() && SameIntent(old(world), world)
    {
      ok := Widen(s, next);
      WidenedWide(world, s, next);
    }

    lemma CanWiden(s: Session, next: Protection, plan: TunPlan)
      requires Valid() && Known(world, s) && Replacing(s) && s.protection.value.state.Armed?
      requires Target(plan) <= world.requested
      requires MovesTo(s.protection.value, next, Peers(s.protection.value) + Target(plan))
      ensures SafeProtect(world, Some(next)) && NoPrevious(s.protection.value)
    {
      Here();
      TransitionsTidy(s.protection.value);
      assert Peers(s.protection.value) <= Mentioned(world.record.value);
      CanRetarget(s, next);
    }

    method Widen(s: Session, next: Protection) returns (ok: bool)
      requires Valid() && Known(world, s) && Replacing(s)
      requires SafeProtect(world, Some(next)) && next.table == s.protection.value.table
      modifies `world, `history, `script, `alive, `stopping
      ensures Valid() && SameMachine(old(world), world) && WideningFrom(s, next, world)
      ensures ok ==> Known(world, VerifiedRecord(s.(protection := Some(next)))) && VerifiedSince(old(world), world)
      ensures old(Healthy() && LiveIs(world, Table(world), PlanOf(s.protection.value))) && Resting(next) ==>
        ok && Undisturbed() && SameIntent(old(world), world)
    {
      ok := SwapProtection(s, next);
      if !ok { return false; }
      ok := Verify();
    }

    // -------------------------------------------------------------- recovery of a replacement

    /** Tries every candidate; two different ones never both match the one live table. */
    method MatchCandidates(plans: seq<Plan>, table: string) returns (m: Matched)
      requires Valid() && ValidTable(table) && Counting.NoDuplicates(plans)
      requires forall i :: 0 <= i < |plans| ==> plans[i].table == table
      modifies `world, `history, `script, `alive, `stopping
      ensures Valid() && Drift(old(world), world) && !m.Many?
      ensures m.One? ==> m.plan in plans && LiveIs(old(world), table, m.plan)
      ensures old(Healthy()) ==> Undisturbed() && world == old(world)
      ensures old(Healthy()) ==> (m.One? <==> exists i :: 0 <= i < |plans| && LiveIs(world, table, plans[i]))
    {
      m := NoMatch;
      for i := 0 to |plans|
        invariant Valid() && Drift(old(world), world)
        invariant !m.Many? && (m.One? ==> m.plan in plans[..i] && LiveIs(old(world), table, m.plan))
        invariant old(Healthy()) ==> Undisturbed() && world == old(world)
        invariant old(Healthy()) ==> (m.One? <==> exists j :: 0 <= j < i && LiveIs(world, table, plans[j]))
      {
        ghost var before := world;
        var ok := NftVerify(plans[i]);
        DriftOn(old(world), before, world);
        assert Fades(old(world), world, table);
        m := if !ok then m else if m.NoMatch? then One(plans[i]) else Many;
      }
    }

    lemma CanRestore()
      requires Valid() && Present(world) && RestoreReady(world)
      ensures SafeWrite(world, Restored(world.record.value))
    {
      Here();
      var s := world.record.value;
      if s.replacement.None? {
        PlainWriteKeeps(world, s);
      } else {
        RestoreKeepsIff(world);
        SafeStepIff(world, world.(record := Some(Restored(s))));
      }
    }

    lemma ReadyStill(before: World)
      requires Valid() && Inv(before) && RestoreReady(before) && Drift(before, world)
      ensures RestoreReady(world)
    {
      ReadyStays(before, world);
    }

    /** Gives up a replacement whose live envelope is the previous one or absent. */
    method RestoreReplacement() returns (ok: bool)
      requires Valid() && RestoreReady(world)
      modifies `world, `history, `script, `alive, `stopping
      ensures Valid() && Quiet(old(world), world)
      ensures !old(Present(world)) ==> !ok && !Present(world)
      ensures old(Present(world)) ==>
        Known(world, old(world).record.value) || Known(world, Restored(old(world).record.value))
      ensures ok ==> Known(world, Restored(old(world).record.value)) && alive
      ensures old(Healthy() && Present(world)) ==>
        ok && Undisturbed() && world == Rewound(old(world))
    {
      Here();
      var loaded := Load();
      if !loaded.Found? { return false; }
      ReadyStill(old(world));
      CanRestore();
      ghost var read := world;
      ok := Save(Restored(loaded.session));
      UntouchedOn(old(world), read, world);
    }

    /** Restores, and reads back that the record is settled again. */
    method RestoreAuthority(s: Session) returns (ok: bool)
      requires Valid() && Known(world, s) && Replacing(s) && RestoreReady(world)
      modifies `world, `history, `script, `alive, `stopping
      ensures Valid() && Quiet(old(world), world)
      ensures Known(world, s) || Known(world, Restored(s))
      ensures ok ==> Known(world, Restored(s)) && alive
      ensures old(Healthy()) ==> ok && Undisturbed() && SameIntent(old(world), world)
    {
      ok := RestoreReplacement();
      if !ok { return false; }
      ghost var read := world;
      var restored := Load();
      UntouchedOn(old(world), read, world);
      ok := restored.Found? && restored.session.protection.Some? && restored.session.replacement.None?;
    }

    /** The previous composition is back: live, or flushed by somebody else since it was seen. */
    ghost predicate Back(before: World, s: Session)
      reads this
      requires Replacing(s)
    {
      RestoreReady(world) && (before.flushes == world.flushes ==> LiveIs(world, Previous(s).table, PlanOf(Previous(s))))
    }

    /**
     Identifies the live composition exactly and goes back to the previous one. Only then is the
     previous request restored; with no further faults this always succeeds.
     */
    method ReconcileReplacement(s: Session) returns (ok: bool)
      requires Valid() && Known(world, s)
      modifies `world, `history, `script, `alive, `stopping
      ensures Valid() && SameMachine(old(world), world)
      ensures Known(world, s) || Known(world, Restored(s))
      ensures ok ==> Replacing(s) && Known(world, Restored(s)) && alive && Converged(old(world), world)
      ensures old(Healthy()) && Replacing(s) ==> ok && Undisturbed() && SameIntent(old(world), world)
    {
      if !Replacing(s) { return false; }
      ok := Rebuild(s, Previous(s));
      if !ok { return false; }
      ok := BringBack(s);
      if !ok { return false; }
      ghost var back := world;
      Here();
      ok := RestoreAuthority(s);
      if ok { ConvergedBack(old(world), back, world, s); }
    }

    /** Makes the previous composition live again, leaving the record alone. */
    method BringBack(s: Session) returns (ok: bool)
      requires Valid() && Known(world, s) && Replacing(s)
      modifies `world, `history, `script, `alive, `stopping
      ensures Valid() && SameMachine(old(world), world) && Known(world, s)
      ensures ok ==> Back(old(world), s)
      ensures old(Healthy()) ==> ok && Undisturbed() && SameIntent(old(world), world)
    {
      CanMount(s);
      var present := NftExists(Previous(s).table);
      KnownAfter(old(world), world, s, None);
      if present.None? { return false; }
      if present.value {
        ok := SwapBack(s);
      } else {
        ok := Recreate(s);
      }
    }

    method Recreate(s: Session) returns (ok: bool)
      requires Valid() && Known(world, s) && Replacing(s)
      modifies `world, `history, `script, `alive, `stopping
      ensures Valid() && SameMachine(old(world), world) && Known(world, s)
      ensures ok ==> Back(old(world), s)
      ensures old(Healthy() && Table(world) !in world.tables) ==> ok && Undisturbed() && SameIntent(old(world), world)
    {
      var previous := PlanOf(Previous(s));
      CanMount(s);
      ok := NftApply(previous);
      if !ok { return false; }
      ok := NftVerify(previous);
    }

    method SwapBack(s: Session) returns (ok: bool)
      requires Valid() && Known(world, s) && Replacing(s)
      modifies `world, `history, `script, `alive, `stopping
      ensures Valid() && SameMachine(old(world), world) && Known(world, s)
      ensures ok ==> Back(old(world), s)
      ensures old(Healthy() && Table(world) in world.tables) ==> ok && Undisturbed() && SameIntent(old(world), world)
    {
      var matched := FindLive(s);
      KnownAfter(old(world), world, s, None);
      if !matched.One? { return false; }
      var previous := PlanOf(Previous(s));
      CanMount(s);
      if matched.plan == previous { return true; }
      ok := ReplaceBy(s, matched.plan);
    }

    method ReplaceBy(s: Session, current: Plan) returns (ok: bool)
      requires Valid() && Known(world, s) && Replacing(s) && current.table == s.protection.value.table
      modifies `world, `history, `script, `alive, `stopping
      ensures Valid() && SameMachine(old(world), world) && Known(world, s)
      ensures ok ==> Back(old(world), s)
      ensures old(Healthy() && LiveIs(world, Table(world), current)) ==>
        ok && Undisturbed() && SameIntent(old(world), world)
    {
      var previous := PlanOf(Previous(s));
      CanMount(s);
      ok := NftReplace(current, previous);
      if !ok { return false; }
      ok := NftVerify(previous);
    }

    /** Which persisted composition is live; by the recoverability invariant there is one. */
    method FindLive(s: Session) returns (m: Matched)
      requires Valid() && Known(world, s) && Replacing(s)
      modifies `world, `history, `script, `alive, `stopping
      ensures Valid() && Drift(old(world), world)
      ensures !m.Many?
      ensures m.One? ==> m.plan.table == Table(world)
      ensures m.One? && Table(world) in world.tables ==> LiveIs(world, Table(world), m.plan)
      ensures m.One? && world.flushes == old(world).flushes ==> LiveIs(world, Table(world), m.plan)
      ensures old(Healthy() && Table(world) in world.tables) ==> m.One? && Undisturbed() && world == old(world)
    {
      var plans := ReplacementRecoveryPlans(s);
      RecoveryPlansFit(s);
      if plans.Err? { return NoMatch; }
      forall i | 0 <= i < |plans.value| ensures plans.value[i].table == Table(world) {
        assert plans.value[i] in Elements(plans.value);
      }
      assert Table(world) in world.tables ==> world.tables[Table(world)].plan in Elements(plans.value);
      m := MatchCandidates(plans.value, Table(world));
      assert Fades(old(world), world, Table(world));
    }

    /** Every composition of the record is accepted and for its table, and a live table holds one of them. */
    lemma RecoveryPlansFit(s: Session)
      requires Valid() && Known(world, s) && Replacing(s)
      ensures ValidTable(Table(world))
      ensures forall i :: 0 <= i < |Authorities(s)| ==> ValidProtection(Authorities(s)[i])
      ensures forall plan :: plan in PlansOf(Authorities(s)) ==> plan.table == Table(world)
      ensures Table(world) in world.tables ==> world.tables[Table(world)].plan in PlansOf(Authorities(s))
    {
      Here();
      assert Authorities(s) == Authorities(world.record.value);
      forall a | a in Authorities(s) ensures ValidProtection(a) && PlanOf(a).table == Table(world) {
        AuthoritiesValid(world.record.value, a);
      }
      if Table(world) in world.tables { LiveIsCandidate(world); }
    }

    method CleanupAfterFailedDataPlane() returns (ok: bool)
      requires Valid()
      modifies `world, `history, `script, `alive, `stopping
      ensures Valid() && SameMachine(old(world), world)
      ensures ok || !old(MidReplacement(world)) ==> !MidReplacement(world)
      ensures old(Healthy()) ==> ok && Undisturbed()
    {
      var loaded := Load();
      if loaded.Unreadable? { return false; }
      if loaded.Absent? || loaded.session.replacement.None? { return true; }
      ReplacementProtected(loaded.session);
      ok := ReconcileReplacement(loaded.session);
    }

    lemma ReplacementProtected(s: Session)
      requires Valid() && Known(world, s) && s.replacement.Some?
      ensures Replacing(s) && Previous(s).table == s.protection.value.table
    {
      Here();
    }

    /** Startup reconciliation: restores or verifies the exact persisted envelope. */
    method ReconcileProtection() returns (ok: bool)
      requires Valid()
      modifies `world, `history, `script, `alive, `stopping
      ensures Valid() && SameMachine(old(world), world)
      ensures ok ==> Converged(old(world), world)
      ensures old(Present(world)) ==> Reconciled(old(world).record.value, world)
      ensures ok && old(Protected(world)) ==> old(world).record.value.intent.Resume?
      ensures old(Healthy()) && (old(Present(world)) ==> Resumable(old(world).record.value)) ==>
        ok && Undisturbed() && (old(Present(world)) ==> SameIntent(old(world), world) && SettledFrom(old(world), world))
    {
      var loaded := Load();
      if loaded.Unreadable? { return false; }
      if loaded.Absent? { return true; }
      var s := loaded.session;
      if s.protection.None? {
        FreshIsSettled(s);
        return true;
      }
      if !s.intent.Resume? || !(s.protection.value.state.Arming? || s.protection.value.state.Armed?) { return false; }
      if s.replacement.Some? {
        ReplacementProtected(s);
        ok := ReconcileReplacement(s);
        return;
      }
      ok := ReconcileSettled(s);
    }

    /** Outside a replacement: recreate the exact table if it is gone, verify it, record it as armed. */
    method ReconcileSettled(s: Session) returns (ok: bool)
      requires Valid() && Known(world, s) && s.protection.Some? && s.replacement.None?
      modifies `world, `history, `script, `alive, `stopping
      ensures Valid() && SameMachine(old(world), world)
      ensures KnownOrRearmed(world, s)
      ensures ok ==> Converged(old(world), world)
      ensures old(Healthy()) ==>
        ok && Undisturbed() && SameIntent(old(world), world) && Known(world, Rearmed(s))
    {
      ok := ComeUp(s);
      if !ok || s.protection.value.state.Armed? { return; }
      ok := Rearm(s);
    }

    /** The persisted table is recreated if it is gone, and verified. */
    method ComeUp(s: Session) returns (ok: bool)
      requires Valid() && Known(world, s) && s.protection.Some? && s.replacement.None?
      modifies `world, `history, `script, `alive, `stopping
      ensures Valid() && SameMachine(old(world), world) && Known(world, s)
      ensures ok ==> LiveIs(world, Table(world), PlanOf(s.protection.value)) && alive
      ensures old(Healthy()) ==> ok && Undisturbed() && SameIntent(old(world), world)
    {
      var plan := PlanOf(s.protection.value);
      ok := Rebuild(s, s.protection.value);
      if !ok { return false; }
      SettledLive(s);
      var present := NftExists(plan.table);
      KnownAfter(old(world), world, s, None);
      if present.None? { return false; }
      if present.value {
        ok := NftVerify(plan);
      } else {
        ok := Reapply(s);
      }
    }

    method Reapply(s: Session) returns (ok: bool)
      requires Valid() && Known(world, s) && s.protection.Some?
      modifies `world, `history, `script, `alive, `stopping
      ensures Valid() && SameMachine(old(world), world) && Known(world, s)
      ensures ok ==> LiveIs(world, Table(world), PlanOf(s.protection.value)) && alive
      ensures old(Healthy() && Table(world) !in world.tables) ==> ok && Undisturbed() && SameIntent(old(world), world)
    {
      var plan := PlanOf(s.protection.value);
      CanMount(s);
      ok := NftApply(plan);
      if !ok { return false; }
      ok := NftVerify(plan);
    }

    /** Outside a replacement a live table is the persisted one. */
    lemma SettledLive(s: Session)
      requires Valid() && Known(world, s) && s.protection.Some? && s.replacement.None?
      ensures Standing(world) && ValidTable(Table(world))
    {
      Here();
      if Table(world) in world.tables { assert Names(world, Table(world)); }
    }

    lemma CanChangeState(s: Session, state: ProtectionState)
      requires Valid() && Known(world, s) && s.protection.Some? && s.replacement.None? && !state.Unarmed?
      ensures SafeProtect(world, Some(s.protection.value.(state := state)))
    {
      Here();
      StateWriteKeeps(world, state);
    }

    method Rearm(s: Session) returns (ok: bool)
      requires Valid() && Known(world, s) && s.protection.Some? && s.replacement.None?
      requires LiveIs(world, Table(world), PlanOf(s.protection.value))
      modifies `world, `history, `script, `alive, `stopping
      ensures Valid() && SameMachine(old(world), world)
      ensures KnownOrRearmed(world, s)
      ensures ok ==> Converged(old(world), world)
      ensures old(Healthy()) ==>
        ok && Undisturbed() && SameIntent(old(world), world) && Known(world, Rearmed(s))
    {
      var next := s.protection.value.(state := Armed);
      CanChangeState(s, Armed);
      SettledLive(s);
      ok := SetProtection(Some(next));
      KnownAfter(old(world), world, s, Some(next));
      assert PlanOf(next) == PlanOf(s.protection.value) && Fades(old(world), world, next.table);
    }

    /** Any number of recoveries, each cut short anywhere, and then one that is not. */
    method RecoverAfterCrashes(scripts: seq<seq<Turn>>) returns (ok: bool)
      requires Valid() && MidReplacement(world) && Resumable(world.record.value)
      modifies `world, `history, `script, `alive, `stopping
      ensures Valid() && Present(world) && AmongReconciled(old(world).record.value, world.record.value)
      ensures ok <==> world.record.value.intent.Resume?
      ensures ok ==> RecoveredTo(old(world).record.value, world)
    {
      ghost var s := world.record.value;
      TidyKnown(s);
      for i := 0 to |scripts|
        invariant Valid() && Present(world) && AmongReconciled(s, world.record.value)
      {
        var _ := RecoveryRun(scripts[i], s);
      }
      ok := RecoveryRun([], s);
    }

    lemma TidyKnown(s: Session)
      requires Valid() && Known(world, s)
      ensures Tidy(s)
    {
      Here();
    }

    /** One start of the daemon, as far as it gets. */
    method RecoveryRun(turns: seq<Turn>, ghost s: Session) returns (ok: bool)
      requires Valid() && Present(world) && Replacing(s) && Resting(s.protection.value) && Tidy(s)
      requires AmongReconciled(s, world.record.value)
      modifies `world, `history, `script, `alive, `stopping
      ensures Valid() && Present(world) && AmongReconciled(s, world.record.value)
      ensures turns == [] ==> (ok <==> world.record.value.intent.Resume?) && (ok ==> RecoveredTo(s, world))
    {
      script, alive := turns, true;
      ReconciledTwice(s, world.record.value, world);
      ok := ReconcileProtection();
      ReconciledTwice(s, old(world).record.value, world);
    }

    // -------------------------------------------------------------- removal

    /**
     Removes the envelope after the caller has proved exact data-plane cleanup. A replacement is
     converged first, the live table is verified again, and the authority goes last.
     */
    method RemoveAfterDataPlaneCleanup() returns (ok: bool)
      requires Valid() && !world.residue
      modifies `world, `history, `script, `alive, `stopping
      ensures Valid() && SameMachine(old(world), world)
      ensures ok ==> Unprotected(world)
      ensures !MidReplacement(old(world)) ==> !MidReplacement(world)
      ensures old(Present(world)) ==> Present(world) && SameLife(old(world).record.value, world.record.value)
      ensures old(Healthy()) ==> ok && Undisturbed()
    {
      var loaded := Load();
      if loaded.Unreadable? { return false; }
      if loaded.Absent? || loaded.session.protection.None? { return true; }
      var s := loaded.session;
      if s.replacement.Some? {
        ReplacementProtected(s);
        ok := RemoveReplaced(s);
      } else {
        ok := RemoveConverged(s);
      }
    }

    /** A replacement in progress is first converged back to one verified barrier. */
    method RemoveReplaced(s: Session) returns (ok: bool)
      requires Valid() && Known(world, s) && !world.residue && s.protection.Some? && s.replacement.Some?
      modifies `world, `history, `script, `alive, `stopping
      ensures Valid() && SameMachine(old(world), world)
      ensures ok ==> Unprotected(world)
      ensures Present(world) && SameLife(s, world.record.value)
      ensures old(Healthy()) ==> ok && Undisturbed()
    {
      var absent;
      ok, absent := ConvergeForRemoval(s);
      if !ok || absent { return ok; }
      var loaded := Load();
      if !loaded.Found? || loaded.session.protection.None? { return false; }
      ok := RemoveConverged(loaded.session);
    }

    /** Ends an open replacement before removal: an absent envelope needs no way back. */
    method ConvergeForRemoval(s: Session) returns (ok: bool, absent: bool)
      requires Valid() && Known(world, s) && s.protection.Some? && s.replacement.Some?
      modifies `world, `history, `script, `alive, `stopping
      ensures Valid() && SameMachine(old(world), world)
      ensures Present(world) && SameLife(s, world.record.value)
      ensures ok ==> world.record.value.replacement.None? && (absent <==> world.record.value.protection.None?)
      ensures old(Healthy()) ==> ok && Undisturbed()
    {
      ReplacementProtected(s);
      var present := NftExists(s.protection.value.table);
      KnownAfter(old(world), world, s, None);
      if present.None? { return false, false; }
      absent := !present.value;
      if present.value {
        ok := ReconcileReplacement(s);
        return;
      }
      ok := ClearAbsent(s);
    }

    lemma CanClear(s: Session)
      requires Valid() && Known(world, s) && s.replacement.None?
      requires (s.protection.Some? ==> s.protection.value.table !in world.tables)
      ensures SafeProtect(world, None)
    {
      Here();
      ClearKeeps(world);
    }

    lemma StaysAbsent(before: World, s: Session)
      requires Valid() && Untouched(before, world) && Known(world, s) && s.protection.Some?
      requires s.protection.value.table !in before.tables
      ensures s.protection.value.table !in world.tables
    {
      Here();
      assert Fades(before, world, s.protection.value.table);
    }

    /** No table is live: the replacement and then the authority are simply cleared. */
    method ClearAbsent(s: Session) returns (ok: bool)
      requires Valid() && Known(world, s) && Replacing(s) && s.protection.value.table !in world.tables
      requires Previous(s).table == s.protection.value.table
      modifies `world, `history, `script, `alive, `stopping
      ensures Valid() && SameMachine(old(world), world)
      ensures Present(world) && SameLife(s, world.record.value)
      ensures ok ==> world.record.value.replacement.None? && world.record.value.protection.None?
      ensures old(Healthy()) ==> ok && Undisturbed()
    {
      ok := RestoreReplacement();
      if !ok { return; }
      var r := Restored(s);
      StaysAbsent(old(world), r);
      CanClear(r);
      ghost var restored := world;
      ok := SetProtection(None);
      KnownAfter(restored, world, r, None);
    }

    method RemoveConverged(s: Session) returns (ok: bool)
      requires Valid() && Known(world, s) && !world.residue && s.protection.Some? && s.replacement.None?
      modifies `world, `history, `script, `alive, `stopping
      ensures Valid() && SameMachine(old(world), world)
      ensures ok ==> Unprotected(world)
      ensures Present(world) && SameLife(s, world.record.value) && world.record.value.replacement.None?
      ensures old(Healthy()) ==> ok && Undisturbed()
    {
      var table := s.protection.value.table;
      ok := Rebuild(s, s.protection.value);
      if !ok { return false; }
      var present := NftExists(table);
      KnownAfter(old(world), world, s, None);
      if present.None? { return false; }
      if !present.value {
        ok := ClearProtection(s);
        return;
      }
      ok := RemoveLive(s);
      if !ok { return false; }
      ok := ClearProtection(s.(protection := Some(s.protection.value.(state := Removing))));
    }

    /** The authority goes once its table is gone. */
    method ClearProtection(s: Session) returns (ok: bool)
      requires Valid() && Known(world, s) && s.replacement.None? && s.protection.Some?
      requires s.protection.value.table !in world.tables
      modifies `world, `history, `script, `alive, `stopping
      ensures Valid() && SameMachine(old(world), world)
      ensures Known(world, s) || Known(world, s.(protection := None))
      ensures ok ==> Known(world, s.(protection := None))
      ensures old(Healthy()) ==> ok && Undisturbed()
    {
      CanClear(s);
      ok := SetProtection(None);
      KnownAfter(old(world), world, s, None);
    }

    /** Verified once more, declared as removal, deleted, and seen to be gone. */
    method RemoveLive(s: Session) returns (ok: bool)
      requires Valid() && Known(world, s) && !world.residue && s.protection.Some? && s.replacement.None?
      modifies `world, `history, `script, `alive, `stopping
      ensures Valid() && SameMachine(old(world), world)
      ensures Known(world, s) || Known(world, s.(protection := Some(s.protection.value.(state := Removing))))
      ensures ok ==>
        && Known(world, s.(protection := Some(s.protection.value.(state := Removing))))
        && s.protection.value.table !in world.tables
      ensures old(Healthy() && Table(world) in world.tables) ==> ok && Undisturbed()
    {
      var p := s.protection.value;
      SettledLive(s);
      ok := NftVerify(PlanOf(p));
      KnownAfter(old(world), world, s, None);
      if !ok { return false; }
      CanChangeState(s, Removing);
      ghost var seen := world;
      ok := SetProtection(Some(p.(state := Removing)));
      KnownAfter(seen, world, s, Some(p.(state := Removing)));
      if !ok { return false; }
      ok := Delete(s.(protection := Some(p.(state := Removing))));
    }

    method Delete(s: Session) returns (ok: bool)
      requires Valid() && Known(world, s) && !world.residue && s.protection.Some? && s.replacement.None?
      requires s.protection.value.state.Removing?
      modifies `world, `history, `script, `alive, `stopping
      ensures Valid() && SameMachine(old(world), world) && Known(world, s)
      ensures ok ==> s.protection.value.table !in world.tables
      ensures old(Healthy() && LiveIs(world, Table(world), PlanOf(s.protection.value))) ==> ok && Undisturbed()
    {
      ok := NftRemove(PlanOf(s.protection.value));
      if !ok { return false; }
      var present := NftExists(s.protection.value.table);
      ok := present == Some(false);
    }

    // -------------------------------------------------------------- session store

    /** Bookkeeping outside a replacement: the next one starts from these peers. */
    method Expect(peers: set<Peer>)
      requires Valid() && Present(world) && world.record.value.replacement.None?
      modifies `world, `history
      ensures Valid() && world == old(world).(requested := peers)
    {
      CanExpect(peers);
      Note(world.(requested := peers));
    }

    lemma CanExpect(peers: set<Peer>)
      requires Valid() && Present(world) && world.record.value.replacement.None?
      ensures SafeStep(world, world.(requested := peers))
    {
      Here();
      SafeStepIff(world, world.(requested := peers));
    }

    /** Bookkeeping: a connect is made with these plans. */
    method Ask(plans: seq<TunPlan>)
      requires Valid()
      modifies `world, `history
      ensures Valid()
      ensures world == old(world).(asked := old(world).asked + plans,
                                   requested := old(world).requested + Targets(plans))
    {
      CanAsk(plans);
      Note(world.(asked := world.asked + plans, requested := world.requested + Targets(plans)));
    }

    lemma CanAsk(plans: seq<TunPlan>)
      requires Valid()
      ensures SafeStep(world, world.(asked := world.asked + plans, requested := world.requested + Targets(plans)))
    {
      Here();
      var next := world.(asked := world.asked + plans, requested := world.requested + Targets(plans));
      assert next.asked[|world.asked|..] == plans;
      SafeStepIff(world, next);
    }

    method BeginOrResume(request: Request, id: string) returns (ok: bool)
      requires Valid() && ValidId(id)
      modifies `world, `history, `script, `alive, `stopping
      ensures Valid() && SameHost(old(world), world) && Untouched(old(world), world)
      ensures ok ==> Present(world) && world.record.value.request == request && world.record.value.intent.Resume?
      ensures ok && MidReplacement(world) ==> old(Present(world)) && old(world).record.value.intent.Resume?
      ensures MidReplacement(old(world)) ==>
        Known(world, old(world).record.value) && world.requested == old(world.requested)
      ensures !MidReplacement(old(world)) && MidReplacement(world) ==>
        JustBegun(world) && request.handoff.ReplacePodlaz?
      ensures old(Healthy()) ==> Undisturbed() && Answers(old(world), world, request, id, ok)
    {
      if !ValidRequest(request) {
        NothingHappened(world);
        return false;
      }
      var loaded := Load();
      if loaded.Unreadable? { return false; }
      ghost var read := world;
      if loaded.Absent? {
        ok := BeginFresh(request, id);
      } else {
        ok := ResumeRead(loaded.session, request);
      }
      UntouchedOn(old(world), read, world);
    }

    lemma NothingHappened(w: World)
      ensures Untouched(w, w)
    {
    }

    /** BeginOrResume on an existing record; its store stays locked since it was read. */
    method ResumeRead(s: Session, request: Request) returns (ok: bool)
      requires Valid() && Present(world) && world.record == Some(s) && ValidRequest(request)
      modifies `world, `history, `script, `alive, `stopping
      ensures Valid() && SameHost(old(world), world) && Untouched(old(world), world) && Present(world)
      ensures ok ==> s.intent.Resume? && world.record.value.request == request && world.record.value.intent.Resume?
      ensures s.replacement.Some? ==> world.record == Some(s) && world.requested == old(world.requested)
      ensures s.replacement.None? && MidReplacement(world) ==> JustBegun(world) && request.handoff.ReplacePodlaz?
      ensures old(Healthy()) ==> Undisturbed() && Answers(old(world), world, request, s.id, ok)
    {
      if !s.intent.Resume? || s.replacement.Some? {
        NothingHappened(world);
        return s.intent.Resume? && s.request == request;
      }
      if s.protection.Some? && request.handoff.ReplacePodlaz? {
        if s.request.mode != "tun" || request.mode != "tun" {
          NothingHappened(world);
          return false;
        }
        ok := BeginReplacement(s, request);
        return;
      }
      if s.protection.Some? && !EquivalentIgnoringHandoff(s.request, request) {
        NothingHappened(world);
        return false;
      }
      CanRewrite(s.(request := request));
      ok := Save(s.(request := request));
    }

    /** Any write that leaves protection and replacement alone and does not lower intent or epoch. */
    lemma CanRewrite(s: Session)
      requires Valid() && Present(world)
      requires var r := world.record.value;
        && s == r.(request := s.request, intent := s.intent, epoch := s.epoch)
        && r.epoch <= s.epoch && (s.epoch == r.epoch || s.epoch < EPOCH_LIMIT)
        && IntentRank(r.intent) <= IntentRank(s.intent)
        && (s.request == r.request || (ValidRequest(s.request) && r.replacement.None?))
      ensures SafeWrite(world, s)
    {
      Here();
      PlainWriteKeeps(world, s);
    }

    method BeginFresh(request: Request, id: string) returns (ok: bool)
      requires Valid() && ValidId(id) && ValidRequest(request) && world.record.None?
      modifies `world, `history, `script, `alive, `stopping
      ensures Valid() && Quiet(old(world), world)
      ensures world.record.None? || world.record == Some(Session(world.boot, id, 0, Resume, request, None, None))
      ensures ok ==> world.record.Some?
      ensures old(Healthy()) ==>
        ok && Undisturbed() && Answers(old(world), world, request, id, ok)
    {
      var begun := Session(world.boot, id, 0, Resume, request, None, None);
      Here();
      FreshKeeps(world, begun);
      ok := Save(begun);
    }

    /** Persists the way back together with the new request. */
    method BeginReplacement(s: Session, request: Request) returns (ok: bool)
      requires Valid() && Present(world) && world.record == Some(s) && s.protection.Some? && s.replacement.None?
      requires s.intent.Resume?
      requires ValidRequest(request) && request.handoff.ReplacePodlaz?
      modifies `world, `history, `script, `alive, `stopping
      ensures Valid() && SameHost(old(world), world) && Untouched(old(world), world)
      ensures ok ==> world.record == Some(Begun(s, request))
      ensures world.record == Some(s) || (world.record == Some(Begun(s, request)) && JustBegun(world))
      ensures old(Healthy()) ==>
        ok && Undisturbed() && Became(old(world), world, Begun(s, request))
    {
      Expect(Peers(s.protection.value));
      CanBegin(s, request);
      ghost var asked := world;
      ok := Save(Begun(s, request));
      SameTables(old(world), asked, world);
    }

    lemma SameTables(a: World, b: World, c: World)
      requires a.tables == b.tables && a.flushes == b.flushes && Untouched(b, c)
      ensures Untouched(a, c)
    {
      forall n ensures Fades(a, c, n) { assert Fades(b, c, n); }
    }

    lemma CanBegin(s: Session, request: Request)
      requires Valid() && Present(world) && world.record == Some(s) && s.protection.Some? && s.replacement.None?
      requires ValidRequest(request) && request.handoff.ReplacePodlaz? && world.requested == Peers(s.protection.value)
      ensures SafeWrite(world, Begun(s, request)) && Wide(Begun(s, request))
    {
      Here();
      BeginKeeps(world, request);
      BegunWide(s, request);
    }

    lemma CanCommit(s: Session)
      requires Valid() && Present(world) && world.record == Some(s) && Replacing(s)
      requires s.protection.value.state.Armed? && NoPrevious(s.protection.value) && CommitSafe(world)
      ensures SafeWrite(world, Committed(s))
    {
      Here();
      CommitKeepsIff(world);
      SafeStepIff(world, world.(record := Some(Committed(s))));
    }

    lemma CommitStillSafe(before: World)
      requires Valid() && Inv(before) && Drift(before, world) && (MidReplacement(before) ==> CommitSafe(before))
      ensures MidReplacement(world) ==> CommitSafe(world)
    {
      DriftRecord(before, world);
      if MidReplacement(before) { assert Table(world) == Table(before) && Fades(before, world, Table(before)); }
    }

    /** Ends a replacement whose target composition was just verified live. */
    method CommitReplacement() returns (ok: bool)
      requires Valid() && (MidReplacement(world) ==> CommitSafe(world))
      modifies `world, `history, `script, `alive, `stopping
      ensures Valid() && Quiet(old(world), world)
      ensures ok || !MidReplacement(old(world)) ==> !MidReplacement(world)
      ensures ok ==>
        old(Present(world)) && Present(world) && world.record.value.protection == old(world).record.value.protection
      ensures ok ==> Known(world, CommittedFrom(old(world).record.value))
      ensures old(Healthy() && Present(world) && (MidReplacement(world) ==> VerifiedNow(world))) ==>
        ok && Undisturbed() && world.flushes == old(world.flushes)
    {
      Here();
      var loaded := Load();
      if !loaded.Found? { return false; }
      CommitStillSafe(old(world));
      ghost var read := world;
      ok := CommitRead(loaded.session);
      UntouchedOn(old(world), read, world);
    }

    method CommitRead(s: Session) returns (ok: bool)
      requires Valid() && Present(world) && world.record == Some(s) && (MidReplacement(world) ==> CommitSafe(world))
      modifies `world, `history, `script, `alive, `stopping
      ensures Valid() && Quiet(old(world), world)
      ensures Present(world) && world.record.value.protection == s.protection
      ensures ok ==> world.record == Some(CommittedFrom(s))
      ensures ok || !MidReplacement(old(world)) ==> !MidReplacement(world)
      ensures old(Healthy() && Present(world) && (MidReplacement(world) ==> VerifiedNow(world))) ==>
        ok && Undisturbed() && world.flushes == old(world.flushes)
    {
      if s.replacement.None? {
        CanRewrite(s);
        ok := Save(s);
        return;
      }
      ReplacementProtected(s);
      if s.protection.None? || !s.protection.value.state.Armed? || !NoPrevious(s.protection.value) {
        NothingHappened(world);
        return false;
      }
      CanCommit(s);
      ok := Save(Committed(s));
    }

    /** persistTeardownIntent and the continuation store's disarm: only ever towards teardown. */
    method RaiseIntent(intent: Intent) returns (ok: bool)
      requires Valid()
      modifies `world, `history, `script, `alive, `stopping
      ensures Valid() && Quiet(old(world), world)
      ensures ok && Present(world) ==> IntentRank(world.record.value.intent) >= IntentRank(intent)
      ensures !old(Present(world)) ==> !Present(world)
      ensures old(Present(world)) ==>
        Present(world) && world.record.value.(intent := old(world).record.value.intent) == old(world).record.value
      ensures ok && old(Present(world)) && !intent.Resume? ==>
        world.record.value.intent == (if old(world).record.value.intent.Terminal? then Terminal else intent)
      ensures old(Present(world)) && !SameLife(old(world).record.value, world.record.value) ==>
        world.record.value.intent == intent && !old(world).record.value.intent.Terminal?
      ensures old(Healthy()) ==> Undisturbed() && (ok || intent.Resume?)
    {
      var loaded := Load();
      if loaded.Unreadable? { return false; }
      if loaded.Absent? { return true; }
      var s := loaded.session;
      if s.intent == intent || s.intent.Terminal? { return true; }
      if !s.intent.Resume? && !(s.intent.Disconnect? && intent.Terminal?) { return false; }
      CanRewrite(s.(intent := intent));
      ghost var read := world;
      ok := Save(s.(intent := intent));
      UntouchedOn(old(world), read, world);
    }

    lemma RecordAccepted()
      requires Valid() && Present(world)
      ensures world.record.value.epoch < EPOCH_LIMIT
    {
      Here();
    }

    /** Refuses while envelope authority remains. */
    method RemoveRecord() returns (ok: bool)
      requires Valid()
      modifies `world, `history, `script, `alive, `stopping
      ensures Valid() && Quiet(old(world), world)
      ensures old(Present(world)) ==> Known(world, old(world).record.value) || world.record.None?
      ensures old(Protected(world)) ==> !ok && Known(world, old(world).record.value)
      ensures !old(Present(world)) ==> !Present(world)
      ensures ok ==> world.record.None?
      ensures old(Healthy()) ==> Undisturbed() && (old(Unprotected(world)) ==> ok)
    {
      var loaded := Load();
      if loaded.Unreadable? { return false; }
      if loaded.Absent? { return true; }
      if loaded.session.protection.Some? { return false; }
      ghost var read := world;
      ok := Discard();
      UntouchedOn(old(world), read, world);
    }

    /** The continuation store's Remove: disarm first, then finalize. */
    method RemoveContinuation() returns (ok: bool)
      requires Valid()
      modifies `world, `history, `script, `alive, `stopping
      ensures Valid() && SameMachine(old(world), world)
      ensures ok ==> world.record.None?
      ensures old(Healthy()) ==> Undisturbed() && ok == Unprotected(old(world))
    {
      ok := RaiseIntent(Disconnect);
      if !ok { return false; }
      ok := RemoveRecord();
    }

    /** Admits one replay of the session under a new recovery epoch. */
    method BeginRecoveryAttempt() returns (ok: bool)
      requires Valid()
      modifies `world, `history, `script, `alive, `stopping
      ensures Valid() && Quiet(old(world), world)
      ensures ok ==>
        Present(world) && old(Present(world)) && world.record.value.epoch == old(world).record.value.epoch + 1
      ensures old(Present(world)) ==>
        Present(world) && Raised(old(world).record.value, world.record.value.(epoch := old(world).record.value.epoch))
      ensures !old(Present(world)) ==> !Present(world)
      ensures old(Healthy()) ==>
        && Undisturbed()
        && ok == (old(Present(world)) && old(world).record.value.epoch < EPOCH_LIMIT - 1)
      ensures old(Healthy()) && ok ==>
        Became(old(world), world, old(world).record.value.(epoch := old(world).record.value.epoch + 1))
    {
      var loaded := Load();
      if !loaded.Found? { return false; }
      var s := loaded.session;
      if s.epoch == EPOCH_LIMIT - 1 { return false; }
      RecordAccepted();
      CanRewrite(s.(epoch := s.epoch + 1));
      ghost var read := world;
      ok := Save(s.(epoch := s.epoch + 1));
      UntouchedOn(old(world), read, world);
    }

    // -------------------------------------------------------------- connect

    lemma CanNote(residue: bool, proven: bool)
      requires Valid()
      ensures SafeStep(world, world.(residue := residue, proven := proven))
    {
      Here();
      SafeStepIff(world, world.(residue := residue, proven := proven));
    }

    /** From here on exact data-plane cleanup is owed. */
    method Expose()
      requires Valid()
      modifies `world, `history
      ensures Valid() && world == old(world).(residue := true, proven := false)
    {
      CanNote(true, false);
      Note(world.(residue := true, proven := false));
    }

    /** Exact data-plane rollback, cleanup or recovery; only a converged one clears the debt. */
    method CleanDataPlane() returns (ok: bool)
      requires Valid()
      modifies `world, `history, `script, `alive, `stopping
      ensures Valid() && Drift(old(world), world.(residue := old(world).residue))
      ensures (world.residue ==> old(world).residue)
      ensures ok ==> !world.residue
      ensures old(Healthy()) ==> ok && Undisturbed() && world == old(world).(residue := false)
    {
      ok := Foreign();
      if ok {
        CanNote(false, world.proven);
        Note(world.(residue := false, proven := world.proven));
      }
    }

    /** Incomplete data-plane rollback leaves the envelope armed. */
    method RollbackThenPrivacy() returns (ok: bool)
      requires Valid()
      modifies `world, `history, `script, `alive, `stopping
      ensures Valid() && SameRuleset(old(world), world)
      ensures ok || !MidReplacement(old(world)) ==> !MidReplacement(world)
      ensures ok ==> !world.residue
    {
      ok := CleanDataPlane();
      if !ok { return false; }
      var loaded := Load();
      if loaded.Unreadable? { return false; }
      if loaded.Found? && loaded.session.replacement.Some? {
        ok := CleanupAfterFailedDataPlane();
      } else {
        ok := RemoveAfterDataPlaneCleanup();
      }
    }

    /** Narrow, verify exactly, probe again, and only then end the replacement. */
    method ArmAndCommit(plan: TunPlan, prepared: bool) returns (active: bool)
      requires Valid() && Target(plan) <= world.requested
      requires MidReplacement(world) ==> prepared && Retargetable(world.record.value)
      modifies `world, `history, `script, `alive, `stopping
      ensures Valid() && SameRuleset(old(world), world)
      ensures active || !MidReplacement(old(world)) ==> !MidReplacement(world)
      ensures active ==> VerifiedSince(old(world), world) && Authorized(world, plan.tun, Target(plan))
      ensures old(Healthy() && ArmReady(world, plan)) ==> active && Undisturbed() && VerifiedNow(world)
    {
      active := Arm(plan);
      if !active { return; }
      active := ConfirmAndCommit(prepared);
    }

    method ConfirmAndCommit(prepared: bool) returns (active: bool)
      requires Valid() && Protected(world) && (MidReplacement(world) ==> prepared)
      modifies `world, `history, `script, `alive, `stopping
      ensures Valid() && SameRuleset(old(world), world)
      ensures active || !MidReplacement(old(world)) ==> !MidReplacement(world)
      ensures active ==> VerifiedSince(old(world), world)
      ensures active ==> world.record.value.protection == Some(Verified(old(world).record.value.protection.value))
      ensures old(Healthy() && Verifiable(world)) ==> active && Undisturbed() && VerifiedNow(world)
    {
      active := Verify();
      if !active { return; }
      active := ProbeAndCommit(prepared);
    }

    /** Probed once more behind the verified envelope, and only then is the replacement over. */
    method ProbeAndCommit(prepared: bool) returns (active: bool)
      requires Valid() && (MidReplacement(world) ==> prepared)
      requires Standing(world) && world.record.value.protection.value.state.Armed?
      requires NoPrevious(world.record.value.protection.value)
      modifies `world, `history, `script, `alive, `stopping
      ensures Valid() && SameRuleset(old(world), world)
      ensures active || !MidReplacement(old(world)) ==> !MidReplacement(world)
      ensures active ==> Standing(world) && world.record.value.protection == old(world).record.value.protection
      ensures active && old(VerifiedNow(world)) && world.flushes == old(world.flushes) ==> VerifiedNow(world)
      ensures old(Healthy() && VerifiedNow(world)) ==> active && Undisturbed() && VerifiedNow(world)
    {
      Here();
      active := Foreign();
      StandingStays(old(world), world);
      if !active || !prepared { return; }
      ghost var probed := world;
      Here();
      active := CommitReplacement();
      if active { StandingStays(probed, world); }
    }

    /** fullTunnelTransactionRunner.run as far as envelope and session see it. */
    method RunTransaction(plan: TunPlan, prepared: bool) returns (r: ConnectResult)
      requires Valid() && Target(plan) <= world.requested
      requires MidReplacement(world) ==> prepared && Retargetable(world.record.value)
      modifies `world, `history, `script, `alive, `stopping
      ensures Valid() && SameRuleset(old(world), world)
      ensures r.Connected? || !MidReplacement(old(world)) ==> !MidReplacement(world)
      ensures r.Connected? ==> VerifiedSince(old(world), world) && Authorized(world, plan.tun, Target(plan))
      ensures old(Healthy() && ArmReady(world, plan)) ==> r.Connected? && Undisturbed() && VerifiedNow(world)
    {
      var started := Foreign();
      if !started { return Refused(NotStarted, false); }
      Expose();
      r := ApplyAndProtect(plan, prepared);
    }

    /** With the data plane owed: apply it, then put the envelope up, or roll everything back. */
    method ApplyAndProtect(plan: TunPlan, prepared: bool) returns (r: ConnectResult)
      requires Valid() && Target(plan) <= world.requested
      requires MidReplacement(world) ==> prepared && Retargetable(world.record.value)
      modifies `world, `history, `script, `alive, `stopping
      ensures Valid() && SameRuleset(old(world), world)
      ensures r.Connected? || !MidReplacement(old(world)) ==> !MidReplacement(world)
      ensures r.Connected? ==> VerifiedSince(old(world), world) && Authorized(world, plan.tun, Target(plan))
      ensures old(Healthy() && ArmReady(world, plan)) ==> r.Connected? && Undisturbed() && VerifiedNow(world)
    {
      var applied := Foreign();
      if !applied {
        var rolled := CleanDataPlane();
        return Refused(if rolled then Completed else Failed, false);
      }
      var active := ArmAndCommit(plan, prepared);
      if active { return Connected; }
      var rolled := RollbackThenPrivacy();
      return Refused(if rolled then Completed else Failed, false);
    }

    /** connectTun: widen, replace the data plane behind the barrier, narrow, verify, commit. */
    method ConnectTun(request: Request, before: TunPlan, after: TunPlan) returns (r: ConnectResult)
      requires Valid() && (MidReplacement(world) ==> world.record.value.request == request)
      modifies `world, `history, `script, `alive, `stopping
      ensures Valid() && world.boot == old(world.boot) && old(world.flushes) <= world.flushes
      ensures world.asked == old(world.asked) + [before, after]
      ensures r.Connected? || !MidReplacement(old(world)) ==> !MidReplacement(world)
      ensures r.Connected? ==> VerifiedSince(old(world), world) && Authorized(world, after.tun, Target(after))
      ensures old(Healthy() && ConnectReady(world, before, after)) ==>
        r.Connected? && Undisturbed() && VerifiedNow(world)
      ensures old(Healthy() && Rebuffed(world, before)) ==>
        r == Refused(NotStarted, false) && Undisturbed() && Unchanged(old(world), world)
    {
      Ask([before, after]);
      AskedTargets(before, after);
      r := ConnectAsked(request, before, after);
    }

    method ConnectAsked(request: Request, before: TunPlan, after: TunPlan) returns (r: ConnectResult)
      requires Valid() && (MidReplacement(world) ==> world.record.value.request == request)
      requires Target(before) <= world.requested && Target(after) <= world.requested
      modifies `world, `history, `script, `alive, `stopping
      ensures Valid() && SameRuleset(old(world), world)
      ensures r.Connected? || !MidReplacement(old(world)) ==> !MidReplacement(world)
      ensures r.Connected? ==> VerifiedSince(old(world), world) && Authorized(world, after.tun, Target(after))
      ensures old(Healthy() && ConnectReady(world, before, after)) ==>
        r.Connected? && Undisturbed() && VerifiedNow(world)
      ensures old(Healthy() && Rebuffed(world, before)) ==>
        r == Refused(NotStarted, false) && Undisturbed() && Unchanged(old(world), world)
    {
      var preflight := Foreign();
      if !preflight { return Refused(NotStarted, false); }
      var loaded := Load();
      if loaded.Unreadable? { return Refused(NotStarted, false); }
      if loaded.Found? && loaded.session.replacement.Some? {
        ReplacementRequest(loaded.session);
        r := ConnectProtected(loaded.session, request, before, after);
      } else {
        r := ReplaceDataPlane(after, false);
      }
    }

    /** Inside a recorded replacement: only behind the prepared barrier. */
    method ConnectProtected(s: Session, request: Request, before: TunPlan, after: TunPlan) returns (r: ConnectResult)
      requires Valid() && Known(world, s) && s.replacement.Some? && s.request == request
      requires Target(before) <= world.requested && Target(after) <= world.requested
      modifies `world, `history, `script, `alive, `stopping
      ensures Valid() && SameRuleset(old(world), world)
      ensures r.Connected? ==> !MidReplacement(world)
      ensures r.Connected? ==> VerifiedSince(old(world), world) && Authorized(world, after.tun, Target(after))
      ensures old(Healthy() && ConnectReady(world, before, after)) ==>
        r.Connected? && Undisturbed() && VerifiedNow(world)
      ensures old(Healthy() && Rebuffed(world, before)) ==>
        r == Refused(NotStarted, false) && Undisturbed() && Unchanged(old(world), world)
    {
      ReplacementRequest(s);
      var protected_ := request.handoff.ReplacePodlaz? && Replacing(s);
      if !protected_ || !s.intent.Resume? || s.request != request { return Refused(NotStarted, false); }
      var prepared := PrepareReplacement(before);
      if !prepared { return Refused(NotStarted, false); }
      WidenedRetargetable();
      r := ReplaceDataPlane(after, true);
    }

    lemma ReplacementRequest(s: Session)
      requires Valid() && Known(world, s) && s.replacement.Some?
      ensures Replacing(s) && s.request.handoff.ReplacePodlaz?
    {
      Here();
    }

    lemma WidenedRetargetable()
      requires Valid() && MidReplacement(world) && NoPrevious(world.record.value.protection.value)
      ensures Retargetable(world.record.value)
    {
      TransitionsTidy(world.record.value.protection.value);
    }

    /** Behind the prepared barrier: the old data plane goes, the new one comes, or everything goes back. */
    method ReplaceDataPlane(plan: TunPlan, prepared: bool) returns (r: ConnectResult)
      requires Valid() && Target(plan) <= world.requested
      requires MidReplacement(world) ==> prepared && Retargetable(world.record.value)
      modifies `world, `history, `script, `alive, `stopping
      ensures Valid() && SameRuleset(old(world), world)
      ensures r.Connected? || !MidReplacement(old(world)) ==> !MidReplacement(world)
      ensures r.Connected? ==> VerifiedSince(old(world), world) && Authorized(world, plan.tun, Target(plan))
      ensures r.Refused? && prepared && !r.incomplete ==> !MidReplacement(world)
      ensures old(Healthy() && ArmReady(world, plan)) ==> r.Connected? && Undisturbed() && VerifiedNow(world)
    {
      var torn := CleanDataPlane();
      RetargetableStill(old(world));
      if torn {
        r := RunTransaction(plan, prepared);
      } else {
        r := Refused(NotStarted, false);
      }
      if r.Refused? && prepared {
        var cleaned := CleanupAfterFailedDataPlane();
        if !cleaned { r := Refused(r.rollback, true); }
      }
    }

    lemma RetargetableStill(before: World)
      requires Drift(before, world.(residue := before.residue))
      ensures MidReplacement(before) <==> MidReplacement(world)
      ensures MidReplacement(before) && Retargetable(before.record.value) ==> Retargetable(world.record.value)
    {
      DriftRecord(before, world.(residue := before.residue));
    }

    /** restorePreviousContinuation: gives up the replacement, then re-arms the previous request. */
    method RestorePrevious(previous: Option<Request>, id: string) returns (ok: bool)
      requires Valid() && ValidId(id) && RestoreReady(world)
      modifies `world, `history, `script, `alive, `stopping
      ensures Valid() && SameHost(old(world), world)
      ensures ok && previous.Some? ==> Present(world) && world.record.value.request == previous.value
      ensures old(Healthy() && !stopping) && previous.Some? ==>
        Undisturbed() && Answers(Rewound(old(world)), world, previous.value, id, ok)
      ensures old(Healthy() && !stopping) && previous.None? ==>
        Undisturbed() && ok == Unprotected(old(world)) && (ok ==> world.record.None?)
    {
      if stopping { return false; }
      if previous.None? {
        ok := RemoveContinuation();
        return;
      }
      Here();
      var loaded := Load();
      if loaded.Unreadable? { return false; }
      if loaded.Found? && loaded.session.replacement.Some? {
        ReadyStill(old(world));
        ok := RestoreReplacement();
        if !ok { return false; }
      }
      ok := BeginOrResume(previous.value, id);
    }

    /**
     Whether a failed replacement may be given up: never after incomplete cleanup, and otherwise
     only on a record that shows nothing moved or that no longer carries the replacement.
     */
    method Gate(previous: Request, r: ConnectResult) returns (open: bool)
      requires Valid() && r.Refused?
      modifies `world, `history, `script, `alive, `stopping
      ensures Valid() && SameMachine(old(world), world)
      ensures open && MidReplacement(world) ==> Unmoved(world.record.value)
      ensures open && !MidReplacement(world) && Protected(world) ==>
        EquivalentIgnoringHandoff(world.record.value.request, previous)
      ensures open ==> MayGoBack(world, previous, r)
      ensures old(Healthy()) ==>
        && Undisturbed() && Unchanged(old(world), world)
        && open == MayGoBack(old(world), previous, r)
    {
      if r.incomplete || r.rollback.Failed? { return false; }
      var loaded := Load();
      if !loaded.Found? { return false; }
      var s := loaded.session;
      if s.replacement.Some? {
        ReplacementProtected(s);
        return r.rollback.NotStarted? && Unmoved(s);
      }
      return s.protection.None? || EquivalentIgnoringHandoff(s.request, previous);
    }

    /**
     networkSessionLifecycle.Connect. `superseded` is whether the previous outcome could be
     superseded; if not, the source gives the replacement up without the gate, which is safe only
     if the previous composition is the only one the record admits to.
     */
    method Connect(
        request: Request, ids: (string, string), plans: (TunPlan, TunPlan), back: (TunPlan, TunPlan), superseded: bool)
      returns (ok: bool)
      requires Valid() && ValidId(ids.0) && ValidId(ids.1)
      requires !superseded && MidReplacement(world) ==> OnlyPrevious(world.record.value)
      modifies `world, `history, `script, `alive, `stopping
      ensures Valid() && world.boot == old(world.boot) && old(world.flushes) <= world.flushes
      ensures AskedAmong(old(world.asked), world.asked, [plans.0, plans.1, back.0, back.1])
      ensures ok ==>
        VerifiedSince(old(world), world) && !MidReplacement(world) && Authorized(world, plans.1.tun, Target(plans.1))
      ensures old(Healthy() && !stopping && Connectable(world, request, ids.0, plans)) && superseded ==>
        ok && Undisturbed() && Serves(world, plans.1)
      ensures old(Healthy() && !stopping && GoesBack(world, request, ids.1, plans.0, back)) && superseded ==>
        !ok && Undisturbed() && Serves(world, back.1)
      ensures old(stopping) ==> !ok && world == old(world)
      ensures old(Healthy()) && ok ==> superseded && Admits(old(world), request)
      ensures old(Healthy() && !stopping && !Present(world)) && !superseded ==> !Present(world)
    {
      if stopping { return false; }
      Here();
      var saved, previous := Admit(request, ids.0);
      if !saved { return false; }
      if !superseded {
        UngatedReady(old(world));
        var _ := RestorePrevious(previous, ids.1);
        return false;
      }
      AdmissionSettles(old(world), request, ids, plans, back);
      ok := Attempt(request, previous, ids.1, plans, back);
    }

    /** What an admission without faults makes of the two cases a connect is decided by. */
    lemma AdmissionSettles(
        before: World, request: Request, ids: (string, string), plans: (TunPlan, TunPlan), back: (TunPlan, TunPlan))
      requires Valid() && Inv(before) && ValidId(ids.0)
      ensures Became(before, world, Admitted(before, request, ids.0)) ==>
        && (Connectable(before, request, ids.0, plans) ==> ConnectReady(world, plans.0, plans.1))
        && (GoesBack(before, request, ids.1, plans.0, back) ==>
              Withdraws(world, before.record.value.request, ids.1, plans.0, back))
    {
      if Became(before, world, Admitted(before, request, ids.0)) {
        if Connectable(before, request, ids.0, plans) { AdmittedReady(before, world, request, ids.0, plans); }
        if GoesBack(before, request, ids.1, plans.0, back) {
          MisfitGoesBack(before, world, request, ids.0, plans.0);
          StillConnectable(before, Rewound(world), before.record.value.request, ids.1, back);
        }
      }
    }

    /** One admitted connect: it succeeds, or it is withdrawn. */
    method Attempt(
        request: Request, previous: Option<Request>, id: string, plans: (TunPlan, TunPlan), back: (TunPlan, TunPlan))
      returns (ok: bool)
      requires Valid() && ValidId(id)
      requires MidReplacement(world) ==>
        world.record.value.request == request && previous.Some? && request.handoff.ReplacePodlaz?
      modifies `world, `history, `script, `alive, `stopping
      ensures Valid() && world.boot == old(world.boot) && old(world.flushes) <= world.flushes
      ensures AskedAmong(old(world.asked), world.asked, [plans.0, plans.1, back.0, back.1])
      ensures ok ==>
        VerifiedSince(old(world), world) && !MidReplacement(world) && Authorized(world, plans.1.tun, Target(plans.1))
      ensures old(Healthy() && ConnectReady(world, plans.0, plans.1)) ==> ok && Undisturbed() && Serves(world, plans.1)
      ensures previous.Some? && old(Healthy() && !stopping && Withdraws(world, previous.value, id, plans.0, back)) ==>
        !ok && Undisturbed() && Serves(world, back.1)
    {
      var r := ConnectTun(request, plans.0, plans.1);
      if r.Connected? { return true; }
      StillWithdraws(old(world), previous, id, plans.0, back);
      var _ := Withdraw(previous, previous.Some? && request.handoff.ReplacePodlaz?, r, id, back);
      return false;
    }

    lemma StillWithdraws(before: World, previous: Option<Request>, id: string, plan: TunPlan, back: (TunPlan, TunPlan))
      requires Valid()
      ensures previous.Some? && Withdraws(before, previous.value, id, plan, back) && Unchanged(before, world) ==>
        Withdraws(world, previous.value, id, plan, back)
    {
      if previous.Some? && Withdraws(before, previous.value, id, plan, back) && Unchanged(before, world) {
        StillConnectable(Rewound(before), Rewound(world), previous.value, id, back);
      }
    }

    lemma UngatedReady(before: World)
      requires Valid()
      requires (MidReplacement(before) ==> OnlyPrevious(before.record.value) && Known(world, before.record.value))
      requires MidReplacement(world) ==> MidReplacement(before) || Unmoved(world.record.value)
      ensures RestoreReady(world)
    {
      Here();
      if MidReplacement(before) {
        RaisedCandidates(before.record.value, world.record.value);
        OnlyPreviousReady(world);
      } else {
        UnmovedReady(world);
      }
    }

    /** Remembers the request being replaced and persists the new one. */
    method Admit(request: Request, id: string) returns (ok: bool, previous: Option<Request>)
      requires Valid() && ValidId(id)
      modifies `world, `history, `script, `alive, `stopping
      ensures Valid() && SameHost(old(world), world)
      ensures ok && MidReplacement(world) ==>
        world.record.value.request == request && previous.Some? && request.handoff.ReplacePodlaz?
      ensures MidReplacement(old(world)) ==> Known(world, old(world).record.value)
      ensures MidReplacement(world) ==> MidReplacement(old(world)) || Unmoved(world.record.value)
      ensures old(Healthy()) ==> Undisturbed() && Answers(old(world), world, request, id, ok)
      ensures old(Healthy()) ==> previous == Remembered(old(world))
    {
      var loaded := Load();
      if loaded.Unreadable? { return false, None; }
      previous := if loaded.Found? && loaded.session.intent.Resume? then Some(loaded.session.request) else None;
      ok := BeginOrResume(request, id);
      if MidReplacement(world) { ReplacementRequest(world.record.value); }
    }

    /** After a failed connect: leave everything to recovery, or go back to the previous request. */
    method Withdraw(previous: Option<Request>, attempt: bool, r: ConnectResult, id: string, back: (TunPlan, TunPlan))
      returns (restored: bool)
      requires Valid() && ValidId(id) && r.Refused?
      requires (attempt ==> previous.Some?) && (MidReplacement(world) ==> attempt)
      modifies `world, `history, `script, `alive, `stopping
      ensures Valid() && world.boot == old(world.boot) && old(world.flushes) <= world.flushes
      ensures AskedAmong(old(world.asked), world.asked, [back.0, back.1])
      ensures old(Healthy()) && attempt && !MayGoBack(old(world), previous.value, r) ==>
        !restored && Unchanged(old(world), world)
      ensures old(Healthy() && !stopping) && attempt && MayGoBack(old(world), previous.value, r) ==>
        && restored == Admits(Rewound(old(world)), previous.value)
        && (Connectable(Rewound(old(world)), previous.value, id, back) ==> Undisturbed() && Serves(world, back.1))
      ensures old(Healthy() && !stopping) && previous.None? ==>
        restored == Unprotected(old(world)) && (restored ==> world.record.None?)
    {
      if attempt {
        var open := Gate(previous.value, r);
        if !open { return false; }
        RewindsAlike(old(world), previous.value, id, back);
      }
      restored := GoBack(previous, attempt, id, back);
    }

    lemma RewindsAlike(before: World, previous: Request, id: string, back: (TunPlan, TunPlan))
      ensures Present(before) && Unchanged(before, world) ==>
        && Admits(Rewound(world), previous) == Admits(Rewound(before), previous)
        && (Connectable(Rewound(before), previous, id, back) ==> Connectable(Rewound(world), previous, id, back))
    {
      if Present(before) && Unchanged(before, world) && Connectable(Rewound(before), previous, id, back) {
        StillConnectable(Rewound(before), Rewound(world), previous, id, back);
      }
    }

    /** Through the gate: the previous request is recorded again, and a replaced data plane restored. */
    method GoBack(previous: Option<Request>, attempt: bool, id: string, back: (TunPlan, TunPlan))
      returns (restored: bool)
      requires Valid() && ValidId(id) && (attempt ==> previous.Some?)
      requires MidReplacement(world) ==> Unmoved(world.record.value)
      modifies `world, `history, `script, `alive, `stopping
      ensures Valid() && world.boot == old(world.boot) && old(world.flushes) <= world.flushes
      ensures AskedAmong(old(world.asked), world.asked, [back.0, back.1])
      ensures old(Healthy() && !stopping) && attempt ==>
        && restored == Admits(Rewound(old(world)), previous.value)
        && (Connectable(Rewound(old(world)), previous.value, id, back) ==> Undisturbed() && Serves(world, back.1))
      ensures old(Healthy() && !stopping) && previous.None? ==>
        restored == Unprotected(old(world)) && (restored ==> world.record.None?)
    {
      GateOpens();
      restored := RestorePrevious(previous, id);
      if restored && attempt && !stopping {
        var _ := ConnectTun(previous.value, back.0, back.1);
      }
    }

    lemma GateOpens()
      requires Valid() && (MidReplacement(world) ==> Unmoved(world.record.value))
      ensures RestoreReady(world)
    {
      Here();
      UnmovedReady(world);
    }

    // -------------------------------------------------------------- teardown

    /** Proves the host network that remains once Podlaz is gone. */
    method VerifyNetwork() returns (ok: bool)
      requires Valid()
      modifies `world, `history, `script, `alive, `stopping
      ensures Valid() && Drift(old(world), world.(proven := old(world).proven)) && (ok ==> world.proven)
      ensures old(Healthy()) ==> ok && Undisturbed() && world == old(world).(proven := true)
    {
      ok := Foreign();
      if ok {
        CanNote(world.residue, true);
        Note(world.(residue := world.residue, proven := true));
      }
    }

    /** Envelope, then proof, then record: the record never outlives its purpose nor dies before it. */
    method FinishTeardown() returns (ok: bool)
      requires Valid() && !world.residue
      modifies `world, `history, `script, `alive, `stopping
      ensures Valid() && SameMachine(old(world), world)
      ensures old(Present(world)) && world.record.None? ==> Finished(world)
      ensures Lives(old(world), world)
      ensures ok ==> world.record.None?
      ensures old(Healthy()) ==> ok
    {
      var loaded := Load();
      if loaded.Unreadable? { return false; }
      if loaded.Found? && loaded.session.protection.Some? {
        ok := RemoveAfterDataPlaneCleanup();
        if !ok { return false; }
      }
      ok := VerifyNetwork();
      if !ok { return false; }
      ok := ClearRecord();
    }

    /** The proof is in: the record may go, unless envelope authority came back. */
    method ClearRecord() returns (ok: bool)
      requires Valid() && world.proven && !world.residue
      modifies `world, `history, `script, `alive, `stopping
      ensures Valid() && SameMachine(old(world), world)
      ensures old(Present(world)) && world.record.None? ==> Finished(world)
      ensures Lives(old(world), world)
      ensures ok ==> world.record.None?
      ensures old(Healthy() && Unprotected(world)) ==> ok
    {
      var loaded := Load();
      if loaded.Unreadable? { return false; }
      if loaded.Absent? { return true; }
      if loaded.session.protection.Some? { return false; }
      ok := RemoveRecord();
      if world.record.None? { NothingOfOurs(); }
    }

    lemma NothingOfOurs()
      requires Valid() && world.record.None?
      ensures forall n :: n in world.tables ==> !world.tables[n].ours
    {
      Here();
    }

    /** The teardown coordinator: intent, data plane, envelope, verification, record, in that order. */
    method Teardown(reason: Reason) returns (ok: bool)
      requires Valid()
      modifies `world, `history, `script, `alive, `stopping
      ensures Valid() && world.asked == old(world.asked)
      ensures old(Present(world)) && world.record.None? ==> Finished(world) && !reason.Restart?
      ensures ok && !reason.Restart? ==> world.record.None? && !world.residue
      ensures Declared(old(world), world, reason)
      ensures old(Healthy()) && !reason.Restart? ==> ok
      ensures old(Healthy()) && reason.Restart? ==>
        ok == (old(Present(world)) ==> old(world).record.value.intent.Resume?) && (ok ==> !world.residue)
    {
      var loaded := Load();
      if loaded.Unreadable? { return false; }
      if reason.Restart? {
        if loaded.Found? && !loaded.session.intent.Resume? { return false; }
        ok := CleanDataPlane();
        return;
      }
      if loaded.Found? {
        ok := RaiseIntent(if reason.Explicit? then Disconnect else Terminal);
        if !ok { return false; }
      }
      ok := CleanAndFinish();
    }

    /** Behind the declared intent: first the data plane, then everything else. */
    method CleanAndFinish() returns (ok: bool)
      requires Valid()
      modifies `world, `history, `script, `alive, `stopping
      ensures Valid() && world.asked == old(world.asked) && Lives(old(world), world)
      ensures old(Present(world)) && world.record.None? ==> Finished(world)
      ensures ok ==> world.record.None? && !world.residue
      ensures old(Healthy()) ==> ok
    {
      ok := CleanDataPlane();
      if !ok { return false; }
      ok := FinishTeardown();
    }

    /** Startup continuation of a declared teardown, after exact data-plane recovery. */
    method ContinueTeardown() returns (ok: bool)
      requires Valid()
      modifies `world, `history, `script, `alive, `stopping
      ensures Valid() && world.asked == old(world.asked)
      ensures old(Present(world)) && world.record.None? ==> Finished(world)
      ensures ok ==> world.record.None? && !world.residue
      ensures old(Healthy()) && (old(Present(world)) ==> !old(world).record.value.intent.Resume?) ==> ok
    {
      ok := CleanDataPlane();
      if !ok { return false; }
      var loaded := Load();
      if loaded.Unreadable? { return false; }
      if loaded.Absent? { return true; }
      if loaded.session.intent.Resume? { return false; }
      ok := FinishTeardown();
    }

    /** Startup resume: barrier first, then exact recovery, then one admitted replay. */
    method ResumeSession(ids: (string, string), plans: (TunPlan, TunPlan), back: (TunPlan, TunPlan)) returns (ok: bool)
      requires Valid() && ValidId(ids.0) && ValidId(ids.1)
      modifies `world, `history, `script, `alive, `stopping
      ensures Valid() && AskedAmong(old(world.asked), world.asked, [plans.0, plans.1, back.0, back.1])
      ensures ok ==> VerifiedSince(old(world), world) && Authorized(world, plans.1.tun, Target(plans.1))
      ensures old(Healthy() && !stopping && Resumes(world, plans)) ==> ok && Undisturbed() && Serves(world, plans.1)
    {
      Here();
      ok := ReconcileProtection();
      if !ok { return false; }
      CanReplay(old(world), ids.0, plans);
      ghost var settled := world;
      ok := CleanDataPlane();
      if !ok { return false; }
      StillReplays(settled, ids.0, plans);
      ok := Replay(ids, plans, back);
    }

    /** One replay of what reconciliation left, under a new recovery epoch. */
    method Replay(ids: (string, string), plans: (TunPlan, TunPlan), back: (TunPlan, TunPlan)) returns (ok: bool)
      requires Valid() && ValidId(ids.0) && ValidId(ids.1)
      modifies `world, `history, `script, `alive, `stopping
      ensures Valid() && world.boot == old(world.boot) && old(world.flushes) <= world.flushes
      ensures AskedAmong(old(world.asked), world.asked, [plans.0, plans.1, back.0, back.1])
      ensures ok ==> VerifiedSince(old(world), world) && Authorized(world, plans.1.tun, Target(plans.1))
      ensures old(Healthy() && !stopping && Replayable(world, ids.0, plans)) ==>
        ok && Undisturbed() && Serves(world, plans.1)
    {
      var loaded := Load();
      if !loaded.Found? || !loaded.session.intent.Resume? { return false; }
      ghost var read := world;
      ok := BeginRecoveryAttempt();
      if !ok || !world.record.value.intent.Resume? { return false; }
      if Replayable(read, ids.0, plans) && Became(read, world, loaded.session.(epoch := loaded.session.epoch + 1)) {
        NextEpoch(read, world, ids.0, plans);
      }
      ok := Connect(loaded.session.request, ids, plans, back, true);
    }

    lemma CanReplay(before: World, id: string, plans: (TunPlan, TunPlan))
      requires Valid() && Inv(before)
      requires Converged(before, world) && world.boot == before.boot
      ensures Resumes(before, plans) && SettledFrom(before, world) ==> Replayable(world, id, plans)
    {
      Here();
      if Resumes(before, plans) && SettledFrom(before, world) { SettledConnectable(before, world, id, plans); }
    }

    lemma StillReplays(before: World, id: string, plans: (TunPlan, TunPlan))
      requires Valid()
      ensures Replayable(before, id, plans) && world == before.(residue := false) ==> Replayable(world, id, plans)
    {
      if Replayable(before, id, plans) && world == before.(residue := false) {
        StillConnectable(before, world, before.record.value.request, id, plans);
      }
    }

    // -------------------------------------------------------------- the world outside

    /** A boot id never seen before: everything live is gone, the record is of another boot. */
    method Reboot(boot: string)
      requires Valid() && boot != "" && (world.record.Some? ==> world.record.value.boot != boot)
      modifies `world, `history, `script, `alive, `stopping
      ensures Valid() && world.boot == boot && world.asked == old(world.asked)
    {
      CanReboot(boot);
      Note(Flushed(world).(boot := boot, residue := false, proven := false));
      alive, stopping := true, false;
    }

    lemma CanReboot(boot: string)
      requires Valid() && boot != "" && (world.record.Some? ==> world.record.value.boot != boot)
      ensures SafeStep(world, Flushed(world).(boot := boot, residue := false, proven := false))
    {
      Here();
      SafeStepIff(world, Flushed(world).(boot := boot, residue := false, proven := false));
    }

    /** Somebody else's table appears, under any name the record does not claim. */
    method AddForeignTable(name: string, plan: Plan)
      requires Valid() && name !in world.tables && !Names(world, name)
      modifies `world, `history
      ensures Valid() && world == Joined(old(world), name, plan)
    {
      Here();
      JoinKeeps(world, name, plan);
      Note(Joined(world, name, plan));
    }

    method Perform(command: Command)
      requires Valid()
      modifies `world, `history, `script, `alive, `stopping
      ensures Valid() && AskedAmong(old(world.asked), world.asked, PlansIn(command))
    {
      match command
      case Connect(request, ids, plans, back, superseded) =>
        var safe := superseded || world.record.None? || OnlyPreviousListed(world.record.value);
        if MidReplacement(world) { ListedIsOnly(world.record.value); }
        if ValidId(ids.0) && ValidId(ids.1) && safe {
          var _ := Connect(request, ids, plans, back, superseded);
        }
      case Teardown(reason) => var _ := Teardown(reason);
      case Disarm => var _ := RaiseIntent(Disconnect);
      case ContinueTeardown => var _ := ContinueTeardown();
      case ResumeSession(ids, plans, back) =>
        if ValidId(ids.0) && ValidId(ids.1) { var _ := ResumeSession(ids, plans, back); }
      case Restart(turns) => script, alive, stopping := turns, true, false;
      case Reboot(boot) => if boot != "" && (world.record.None? || world.record.value.boot != boot) { Reboot(boot); }
      case Flush => Meanwhile(RulesetFlushed, false);
      case AddForeignTable(name, plan) =>
        if name !in world.tables && !Claims(world, name) {
          AddForeignTable(name, plan);
        }
    }

    /** Every run of the daemon, over any faults, crashes, reboots and neighbours, stays safe. */
    method Run(commands: seq<Command>)
      requires Valid()
      modifies this
      ensures Valid() && old(history) <= history && old(world.asked) <= world.asked
      ensures forall i :: |old(world.asked)| <= i < |world.asked| ==> AskedBy(world.asked[i], commands)
    {
      anchor := history;
      for k := 0 to |commands|
        invariant Valid() && anchor == old(history) && old(world.asked) <= world.asked
        invariant forall i :: |old(world.asked)| <= i < |world.asked| ==> AskedBy(world.asked[i], commands)
      {
        ghost var before := world.asked;
        Perform(commands[k]);
        forall i | |old(world.asked)| <= i < |world.asked| ensures AskedBy(world.asked[i], commands) {
          if i < |before| { assert world.asked[i] == before[i]; }
        }
      }
    }
  }
}
