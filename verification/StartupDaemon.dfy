/**
 Startup: boot autostart, session resume, replay evidence and terminal completion, as ordered
 durable writes that can fail before or after taking effect or be cut short by a crash.
 */
module StartupDaemon {
  import opened Wrappers
  import opened Intents
  import opened StartupState
  import Runs
  import Text

  const EPOCH_LIMIT := 0x1_0000_0000_0000_0000

  datatype ResumeResult = ResumeFailed | NoSession | Resumed | TerminalConverged

  datatype StartupResult = Noop | Continued | Connected | EndedTerminal | Blocked | RecoveryFailed

  datatype LoadedSession = Unreadable | Absent | Found(session: Session)

  datatype ConnectOutcome =
    | Up
    | Down(disposition: Disposition, mutation: Mutation, rollback: Rollback,
           transactionPresent: bool, transaction: string)

  /** What waiting for a usable uplink ends with. */
  datatype Readiness = Ready | TimedOut | Cancelled | Unobserved

  datatype Command =
    | Startup(id: string)
    | Reboot(boot: string)
    | Configure(manifest: Option<Manifest>)
    | UserConnect(request: string, id: string)
    | UserDisconnect

  /** The boot attempt is over for this reason. */
  predicate EndedWith(d: Disk, reason: Reason) {
    AttemptNow(d) && d.attempt.value.state == Ended(reason)
  }

  /** The boot attempt succeeded and its session, with the pinned configuration, is in force. */
  predicate Settled(d: Disk, configuration: string) {
    && AttemptNow(d) && d.attempt.value.state.Succeeded? && d.attempt.value.configuration == configuration
    && SessionNow(d) && d.session.value.intent.Resume? && d.session.value.request == configuration
  }

  /** The session is as it was but for these fields. */
  predicate SessionIs(d: Disk, s: Session) {
    d.session == Some(s)
  }

  /** This boot's attempt is still open. */
  predicate Underway(d: Disk) {
    AttemptNow(d) && d.attempt.value.state.InProgress?
  }

  /** A session of this boot is to be resumed. */
  predicate ResumableNow(d: Disk) {
    SessionNow(d) && d.session.value.intent.Resume?
  }

  /**
   What a startup makes of the attempt in progress when no session exists and nothing goes wrong:
   the uplink and then the one Connect decide.
   */
  predicate Attempted(a: Disk, b: Disk, r: StartupResult, uplink: Readiness, verdict: ConnectOutcome)
    requires a.attempt.Some?
  {
    var c := a.attempt.value.configuration;
    match uplink
    case Ready =>
      && b.connects == a.connects + 1
      && (if verdict.Up? then r.Connected? && Settled(b, c)
          else if verdict.disposition == Interrupted then
            r.Continued? && b.attempt == a.attempt
            && SessionNow(b) && b.session.value.intent == Resume && b.session.value.request == c
          else r.EndedTerminal? && EndedWith(b, ConnectFailed) && b.session.None?)
    case TimedOut => r.EndedTerminal? && EndedWith(b, NetworkNotReady) && b.session.None? && b.connects == a.connects
    case Cancelled => r.Continued? && b.attempt == a.attempt && b.session == a.session && b.connects == a.connects
    case Unobserved => r.RecoveryFailed? && b.attempt == a.attempt && b.session == a.session && b.connects == a.connects
  }

  /** The attempt a manifest is admitted as. */
  function AttemptFor(m: Manifest, boot: string): Attempt {
    Attempt(boot, m.generation, InProgress, m.configuration)
  }

  /**
   What a startup does when no session and no attempt of this boot exist and nothing goes wrong: it
   takes up a manifest exactly if that was configured in another boot.
   */
  predicate FreshlyStarted(a: Disk, b: Disk, r: StartupResult, uplink: Readiness, verdict: ConnectOutcome) {
    if a.manifest.Some? && a.manifest.value.configuredBoot != a.boot then
      var attempt := AttemptFor(a.manifest.value, a.boot);
      && b.admissions == a.admissions + [attempt]
      && Attempted(a.(session := None, attempt := Some(attempt)), b, r, uplink, verdict)
    else r.Noop? && b.admissions == a.admissions && b.connects == a.connects && b.attempt.None? && b.session.None?
  }

  /** The evidence a failed Connect leaves. */
  function EvidenceFor(s: Session, o: ConnectOutcome): Evidence
    requires o.Down?
  {
    Evidence(s.id, s.epoch, o.disposition, o.mutation, o.rollback, o.transactionPresent, o.transaction)
  }

  /** Evidence on which a protected session is ended for good. */
  predicate Ends(s: Session, e: Evidence) {
    s.protected && LeftNothing(e) && (e.mutation == RolledBack ==> Text.Trim(e.transaction) != "")
  }

  /** The session is ended: its teardown is declared terminal and its envelope gone. */
  predicate EndedFrom(s: Session, b: Disk) {
    SessionIs(b, s.(intent := Terminal, protected := false))
  }

  /** A failed replay leaves its evidence, and ends the session if that evidence does. */
  ghost predicate AfterFailure(s: Session, b: Disk, r: ResumeResult, o: ConnectOutcome)
    requires o.Down?
  {
    if Ends(s, EvidenceFor(s, o)) then r.TerminalConverged? && EndedFrom(s, b)
    else r.ResumeFailed? && SessionIs(b, s) && OnRecord(b, EvidenceFor(s, o))
  }

  /**
   What a startup makes of a resumable session when nothing goes wrong: recorded terminal evidence
   ends it, recorded incomplete evidence blocks it, and otherwise it is replayed once under a new
   epoch, with the outcome recorded.
   */
  ghost predicate Replayed(a: Disk, b: Disk, r: ResumeResult, verdict: ConnectOutcome, protects: bool)
    requires a.session.Some?
  {
    var s := a.session.value;
    if exists e :: OnRecord(a, e) && e.disposition == TerminalReplay then
      && b.replays == a.replays
      && if exists e :: OnRecord(a, e) && Ends(s, e) then r.TerminalConverged? && EndedFrom(s, b)
         else r.ResumeFailed? && SessionIs(b, s)
    else OnceReplayed(a, b, r, verdict, protects)
  }

  ghost predicate OnceReplayed(a: Disk, b: Disk, r: ResumeResult, verdict: ConnectOutcome, protects: bool)
    requires a.session.Some?
  {
    var s := a.session.value;
    if exists e :: OnRecord(a, e) && e.disposition == IncompleteReplay then
      && r.ResumeFailed? && SessionIs(b, s) && b.replays == a.replays && b.connects == a.connects
      && b.diagnostic == a.diagnostic
    else if s.epoch + 1 == EPOCH_LIMIT then r.ResumeFailed? && b.replays == a.replays && SessionIs(b, s)
    else ReplayedOnce(a.(session := Some(s.(epoch := s.epoch + 1))), b, r, verdict, protects)
  }

  /** Replayed under the epoch just admitted: one Connect more, and its verdict decides. */
  ghost predicate ReplayedOnce(a: Disk, b: Disk, r: ResumeResult, verdict: ConnectOutcome, protects: bool)
    requires a.session.Some?
  {
    var s := a.session.value;
    var again := s.(protected := protects);
    && b.replays == a.replays + [(s.id, s.epoch)] && b.connects == a.connects + 1
    && if verdict.Up? then r.Resumed? && SessionIs(b, again) else AfterFailure(again, b, r, verdict)
  }

  /** How a startup completes what it learned about the session it found, when nothing goes wrong. */
  predicate CompletedFrom(m: Disk, b: Disk, result: ResumeResult, r: StartupResult) {
    var inProgress := AttemptNow(m) && m.attempt.value.state == InProgress;
    match result
    case ResumeFailed => r.RecoveryFailed? && b == m
    case Resumed =>
      r.Continued? && b == if inProgress then m.(attempt := Some(m.attempt.value.(state := Succeeded))) else m
    case TerminalConverged =>
      && b.session.None? && b.connects == m.connects && b.replays == m.replays
      && if inProgress then r.EndedTerminal? && EndedWith(b, SessionFailure) else r.Continued? && b.attempt == m.attempt
    case NoSession => r.Continued?
  }

  /** A declared teardown is finished, and ends an attempt still in progress. */
  predicate TornDown(a: Disk, b: Disk, r: StartupResult) {
    && b.session.None? && b.connects == a.connects && b.replays == a.replays
    && if AttemptNow(a) && a.attempt.value.state == InProgress then r.EndedTerminal? && EndedWith(b, SessionFailure)
       else r.Continued? && (AttemptNow(a) ==> b.attempt == a.attempt)
  }

  /** The records of this boot; those of an earlier one are dropped when they are read. */
  function Current(d: Disk): Disk {
    d.(session := if SessionNow(d) then d.session else None, attempt := if AttemptNow(d) then d.attempt else None)
  }

  lemma ReplayedAnyway(a: Disk, m: Disk, result: ResumeResult, verdict: ConnectOutcome, protects: bool)
    requires SessionNow(a) && Replayed(Current(a), m, result, verdict, protects)
    ensures Replayed(a, m, result, verdict, protects)
  {
    assert forall e :: OnRecord(Current(a), e) <==> OnRecord(a, e);
  }

  lemma CurrentMatters(
      a: Disk, b: Disk, r: StartupResult, uplink: Readiness, verdict: ConnectOutcome, protects: bool)
    requires Started(Current(a), b, r, uplink, verdict, protects)
    ensures Started(a, b, r, uplink, verdict, protects)
  {
    var x := Current(a);
    if SessionNow(a) && a.session.value.intent == Resume {
      var m, result :| Replayed(x, m, result, verdict, protects) && CompletedFrom(m, b, result, r);
      ReplayedAnyway(a, m, result, verdict, protects);
    }
  }

  /** What a startup does when nothing goes wrong, whatever it finds on disk. */
  ghost predicate Started(
      a: Disk, b: Disk, r: StartupResult, uplink: Readiness, verdict: ConnectOutcome, protects: bool)
  {
    if SessionNow(a) then
      if a.session.value.intent == Resume then
        exists m, result :: Replayed(a, m, result, verdict, protects) && CompletedFrom(m, b, result, r)
      else TornDown(a, b, r)
    else if AttemptNow(a) then
      if a.attempt.value.state == InProgress then Attempted(a.(session := None), b, r, uplink, verdict)
      else r.Noop? && b.attempt == a.attempt && b.connects == a.connects && b.session.None?
    else FreshlyStarted(a, b, r, uplink, verdict)
  }

  /** Only the session record may differ. */
  predicate SameButSession(a: Disk, b: Disk) {
    b.(session := a.session) == a
  }

  /** Boot, attempt, manifest and request markers are as before. */
  predicate SameStores(a: Disk, b: Disk) {
    a.boot == b.boot && a.attempt == b.attempt && a.userActed == b.userActed && a.busy == b.busy
    && a.manifest == b.manifest && a.admissions == b.admissions
  }

  predicate SameAttempts(a: Disk, b: Disk) {
    a.boot == b.boot && a.attempt == b.attempt && a.userActed == b.userActed && a.busy == b.busy
    && a.admissions == b.admissions && a.replays == b.replays
  }

  class Daemon {
    var disk: Disk
    var alive: bool
    var faults: bool              // whether steps may fail or be cut short
    var uplink: Readiness         // what waiting for the network ends with
    var verdict: ConnectOutcome   // what the wrapped Connect reports
    var protects: bool            // whether it leaves envelope authority behind
    ghost var history: seq<Disk>
    ghost var anchor: seq<Disk>   // a past that only Run chooses: history only grows beyond it

    ghost predicate Valid()
      reads this
    {
      history != [] && history[|history| - 1] == disk && SoundHistory(history) && anchor <= history
    }

    lemma Here()
      requires Valid()
      ensures Inv(disk)
    {
      Runs.ChainAt(Inv, Allowed, history, |history| - 1);
    }

    /** Nothing goes wrong any more. */
    predicate Healthy()
      reads this
    {
      alive && !faults
    }

    constructor (boot: string)
      requires boot != ""
      ensures Valid() && disk == Disk(boot, None, None, None, None, [], [], 0, false, false)
    {
      disk := Disk(boot, None, None, None, None, [], [], 0, false, false);
      alive, faults := true, true;
      uplink, verdict, protects := Ready, Up, true;
      history := [Disk(boot, None, None, None, None, [], [], 0, false, false)];
      anchor := [];
    }

    /** Records a change of the durable state. */
    method Note(next: Disk)
      requires Valid() && Inv(next) && Allowed(disk, next)
      modifies `disk, `history
      ensures Valid() && disk == next
    {
      Runs.ChainGrows(Inv, Allowed, history, next);
      disk := next;
      history := history + [next];
    }

    /** One durable write: it may fail before or after taking effect, or the daemon may die around it. */
    method Write(next: Disk) returns (ok: bool)
      requires Valid() && Inv(next) && Allowed(disk, next)
      modifies `disk, `history, `alive
      ensures Valid() && (disk == old(disk) || disk == next)
      ensures ok ==> disk == next && alive
      ensures !old(alive) ==> disk == old(disk) && !alive
      ensures old(Healthy()) ==> ok && Healthy()
    {
      ok := false;
      if !alive { return; }
      var effective: bool, reported: bool, dies: bool := *, *, *;
      if !faults { effective, reported, dies := true, true, false; }
      if effective { Note(next); }
      alive := !dies;
      ok := effective && reported && !dies;
    }

    /** A step outside the durable stores. */
    method Foreign() returns (ok: bool)
      requires Valid()
      modifies `alive
      ensures ok ==> alive
      ensures !old(alive) ==> !alive
      ensures old(Healthy()) ==> ok && Healthy()
    {
      var success: bool, dies: bool := *, *;
      if !faults { success, dies := true, false; }
      alive := alive && !dies;
      ok := success && alive;
    }

    // -------------------------------------------------------------- session store

    method LoadSession() returns (r: LoadedSession)
      requires Valid()
      modifies `disk, `history, `alive
      ensures Valid() && (disk == old(disk) || (disk == old(disk).(session := None) && !old(SessionNow(disk))))
      ensures r.Found? ==> disk == old(disk) && SessionNow(disk) && disk.session == Some(r.session)
      ensures r.Absent? ==> disk.session.None?
      ensures old(Healthy()) ==> Healthy() && !r.Unreadable?
    {
      var ok := Foreign();
      if !ok { return Unreadable; }
      if disk.session.None? { return Absent; }
      if disk.session.value.boot == disk.boot { return Found(disk.session.value); }
      Here();
      var gone := Write(disk.(session := None));
      return if gone then Absent else Unreadable;
    }

    /** BeginOrResume as startup uses it: a protected session accepts no other request. */
    method SaveSession(request: string, id: string) returns (ok: bool)
      requires Valid() && FreshId(disk, id)
      requires disk.busy || (AttemptNow(disk) && request == disk.attempt.value.configuration
        && disk.session.None? && disk.attempt.value.state.InProgress?)
      modifies `disk, `history, `alive
      ensures Valid() && SameButSession(old(disk), disk)
      ensures ok ==> SessionNow(disk) && disk.session.value.intent.Resume? && disk.session.value.request == request
      ensures old(disk.session.None?) && disk.session.Some? ==> !disk.session.value.protected
      ensures old(Healthy()) ==> Healthy() && (old(disk.session.None?) ==> ok)
    {
      var loaded := LoadSession();
      if loaded.Unreadable? { return false; }
      Here();
      if loaded.Absent? {
        var s := Session(disk.boot, id, 0, Resume, request, false);
        FreshSessionSound(disk, s);
        ok := Write(disk.(session := Some(s)));
        return;
      }
      var s := loaded.session;
      if !s.intent.Resume? || (s.protected && s.request != request) { return false; }
      SessionWriteSound(disk, s.(request := request));
      ok := Write(disk.(session := Some(s.(request := request))));
    }

    /** Moves intent towards teardown, never back. */
    method Disarm(intent: Intent) returns (ok: bool)
      requires Valid()
      requires intent.Terminal? ==> AttemptNow(disk) && disk.attempt.value.state.InProgress?
      modifies `disk, `history, `alive
      ensures Valid() && SameButSession(old(disk), disk)
      ensures ok && SessionNow(disk) ==> IntentRank(intent) <= IntentRank(disk.session.value.intent)
      ensures old(SessionNow(disk)) ==>
        SessionNow(disk) && disk.session.value.(intent := old(disk).session.value.intent) == old(disk).session.value
      ensures old(Healthy()) && !intent.Resume? ==> Healthy() && ok
    {
      var loaded := LoadSession();
      if loaded.Unreadable? { return false; }
      if loaded.Absent? { return true; }
      var s := loaded.session;
      if s.intent == intent || s.intent.Terminal? { return true; }
      if !s.intent.Resume? && !(s.intent.Disconnect? && intent.Terminal?) { return false; }
      Here();
      SessionWriteSound(disk, s.(intent := intent));
      ok := Write(disk.(session := Some(s.(intent := intent))));
    }

    /** Terminal teardown without removing the record: recovery, envelope removal, remaining-network proof. */
    method ConvergeTeardown() returns (ok: bool)
      requires Valid()
      modifies `disk, `history, `alive
      ensures Valid() && SameButSession(old(disk), disk)
      ensures old(SessionNow(disk)) ==>
        && SessionNow(disk)
        && disk.session.value.(protected := old(disk).session.value.protected) == old(disk).session.value
      ensures ok ==> SessionNow(disk) && !disk.session.value.intent.Resume? && !disk.session.value.protected
      ensures old(Healthy()) ==> Healthy() && (old(SessionNow(disk) && !disk.session.value.intent.Resume?) ==> ok)
    {
      var recovered := Foreign();
      if !recovered { return false; }
      var loaded := LoadSession();
      if !loaded.Found? || loaded.session.intent.Resume? { return false; }
      var s := loaded.session;
      if s.protected {
        Here();
        SessionWriteSound(disk, s.(protected := false));
        ok := Write(disk.(session := Some(s.(protected := false))));
        if !ok { return false; }
      }
      ok := Foreign();
    }

    /** finalize: the record goes, then the retained replay evidence. */
    method Finalize() returns (ok: bool)
      requires Valid() && (SessionNow(disk) && AttemptNow(disk) ==> disk.busy || !disk.attempt.value.state.InProgress?)
      modifies `disk, `history, `alive
      ensures Valid() && SameAttempts(old(disk), disk) && disk.connects == old(disk.connects)
      ensures ok ==> disk.session.None?
      ensures old(Healthy() && (SessionNow(disk) ==> !disk.session.value.protected)) ==> Healthy() && ok
    {
      var preflight := Foreign();
      if !preflight { return false; }
      var loaded := LoadSession();
      if loaded.Unreadable? || (loaded.Found? && loaded.session.protected) { return false; }
      if loaded.Found? {
        Here();
        RemoveSessionSound(disk);
        ok := Write(disk.(session := None));
        if !ok { return false; }
      }
      ok := ForgetEvidence();
    }

    /** Removes the diagnostic once no session refers to it, or after a replay that went through. */
    method ForgetEvidence() returns (ok: bool)
      requires Valid() && !Frozen(disk)
      modifies `disk, `history, `alive
      ensures Valid() && (disk == old(disk) || disk == old(disk).(diagnostic := None))
      ensures old(Healthy()) ==> Healthy() && ok
    {
      ok := Foreign();
      if !ok || disk.diagnostic.None? { return; }
      Here();
      ForgetSound(disk);
      ok := Write(disk.(diagnostic := None));
    }

    // -------------------------------------------------------------- replay evidence

    /** SaveLatestBlocker: whatever replay evidence was on record stays on record. */
    method SaveLatestBlocker()
      requires Valid()
      modifies `disk, `history, `alive
      ensures Valid() && disk.(diagnostic := old(disk.diagnostic)) == old(disk)
      ensures CurrentEvidence(disk) == CurrentEvidence(old(disk))
      ensures old(DiagnosticNow(disk)) ==> disk.diagnostic == old(disk.diagnostic)
      ensures old(Healthy()) ==> Healthy()
    {
      var read := Foreign();
      if !read { return; }
      Here();
      BlockerSound(disk);
      var kept := Diagnostic(disk.boot, if DiagnosticNow(disk) then disk.diagnostic.value.originating else None,
                             if DiagnosticNow(disk) then disk.diagnostic.value.current else None);
      var _ := Write(disk.(diagnostic := Some(kept)));
    }

    /** TransitionReplayToTerminal: exactly under current, cleanup-safe, witnessed evidence. */
    method TransitionReplayToTerminal(e: Evidence, proven: Option<(string, nat)>) returns (committed: bool)
      requires Valid()
      requires SessionNow(disk) && disk.session.value.id == e.session && disk.session.value.epoch == e.epoch ==>
        CurrentEvidence(disk) == Some(e)
      modifies `disk, `history, `alive
      ensures Valid() && SameButSession(old(disk), disk)
      ensures disk.session != old(disk.session) && SessionNow(old(disk)) ==>
        && CleanupSafe(e) && proven == Some((e.session, e.epoch)) && CurrentEvidence(old(disk)) == Some(e)
        && old(disk.session.value.intent.Resume? && disk.session.value.protected)
        && disk.session == Some(old(disk.session.value).(intent := Terminal))
      ensures committed ==>
        old(SessionNow(disk)) && SessionNow(disk) && disk.session == Some(old(disk.session.value).(intent := Terminal))
      ensures old(SessionNow(disk)) ==> SessionNow(disk)
      ensures old(Healthy()) ==> Healthy()
      ensures old(Healthy() && ResumableNow(disk) && disk.session.value.protected) ==>
        OnRecord(old(disk), e) && LeftNothing(e) && proven == Some((e.session, e.epoch)) ==> committed
    {
      EvidenceReads(disk);
      if !CleanupSafe(e) || proven != Some((e.session, e.epoch)) { return false; }
      var loaded := LoadSession();
      if !loaded.Found? { return false; }
      var s := loaded.session;
      if !s.intent.Resume? || !s.protected || s.id != e.session || s.epoch != e.epoch { return false; }
      Here();
      SessionWriteSound(disk, s.(intent := Terminal));
      committed := Write(disk.(session := Some(s.(intent := Terminal))));
    }

    /** terminalizeNetworkSessionReplay: witness, transition, teardown. */
    method Terminalize(e: Evidence) returns (ok: bool)
      requires Valid() && CurrentEvidence(disk) == Some(e)
      modifies `disk, `history, `alive
      ensures Valid() && SameButSession(old(disk), disk) && SessionNow(disk)
      ensures disk.session.value.request == old(disk).session.value.request
      ensures ok ==> !disk.session.value.intent.Resume?
      ensures old(Healthy() && disk.session.value.intent.Resume?) ==>
        Healthy() && (ok <==> Ends(old(disk).session.value, e))
      ensures old(Healthy() && disk.session.value.intent.Resume?) ==>
        if ok then EndedFrom(old(disk).session.value, disk) else disk == old(disk)
    {
      EvidenceReads(disk);
      var loaded := LoadSession();
      if !loaded.Found? { return false; }
      var s := loaded.session;
      if !s.intent.Resume? || !s.protected || s.id != e.session || s.epoch != e.epoch { return false; }
      if !CleanupSafe(e) { return false; }
      if e.mutation.RolledBack? && Text.Trim(e.transaction) == "" { return false; }
      var observed := Foreign();
      if !observed { return false; }
      var committed := TransitionReplayToTerminal(e, Some((s.id, s.epoch)));
      if !committed { return false; }
      ok := ConvergeTeardown();
    }

    // -------------------------------------------------------------- resume

    /** The wrapped Connect: it re-saves the request and may gain or lose envelope authority. */
    method RunConnect() returns (o: ConnectOutcome)
      requires Valid() && SessionNow(disk)
      modifies `disk, `history, `alive
      ensures Valid() && SameButSession(old(disk), disk)
      ensures SessionNow(disk)
      ensures disk.session.value.(protected := old(disk).session.value.protected) == old(disk).session.value
      ensures old(Healthy()) ==> Healthy() && o == verdict
      ensures old(Healthy()) ==> disk == old(disk).(session := Some(old(disk).session.value.(protected := protects)))
    {
      var protected: bool := *;
      if !faults { protected := protects; }
      Here();
      SessionWriteSound(disk, disk.session.value.(protected := protected));
      var saved := Write(disk.(session := Some(disk.session.value.(protected := protected))));
      var up: bool := *;
      if !faults { return verdict; }
      if saved && up { return Up; }
      o := *;
      if o.Up? { o := Down(Interrupted, Unresolved, NoRollback, false, ""); }
    }

    /**
     Admits a replay unless an incomplete one is on record: the new epoch is durable before anything
     is connected, and has no evidence yet.
     */
    method AdmitReplay() returns (ok: bool, blocked: bool)
      requires Valid() && SessionNow(disk)
      modifies `disk, `history, `alive
      ensures Valid() && SameButSession(old(disk), disk)
      ensures SessionNow(disk) && disk.session.value.(epoch := old(disk).session.value.epoch) == old(disk).session.value
      ensures blocked <==> Frozen(old(disk))
      ensures blocked ==> !ok && disk == old(disk)
      ensures ok ==> disk.session.value.epoch == old(disk).session.value.epoch + 1
      ensures ok ==> CurrentEvidence(disk).None? && (disk.session.value.id, disk.session.value.epoch) !in disk.replays
      ensures old(Healthy()) ==> Healthy() && (ok <==> !blocked && old(disk).session.value.epoch + 1 != EPOCH_LIMIT)
      ensures !ok && old(Healthy()) ==> disk == old(disk)
    {
      if Frozen(disk) { return false, true; }
      var s := disk.session.value;
      if s.epoch == EPOCH_LIMIT - 1 { return false, false; }
      Here();
      EpochWriteSound(disk);
      var next := disk.(session := Some(s.(epoch := s.epoch + 1)));
      EpochFresh(disk, next);
      ok := Write(next);
      blocked := false;
    }

    /** Replays under an admitted epoch. */
    method Replay() returns (o: ConnectOutcome)
      requires Valid() && SessionNow(disk) && disk.session.value.intent.Resume? && CurrentEvidence(disk).None?
      requires (disk.session.value.id, disk.session.value.epoch) !in disk.replays
      modifies `disk, `history, `alive
      ensures Valid() && SameStores(old(disk), disk) && CurrentEvidence(disk).None?
      ensures SessionNow(disk)
      ensures disk.session.value.(protected := old(disk).session.value.protected) == old(disk).session.value
      ensures disk.replays == old(disk.replays) + [(disk.session.value.id, disk.session.value.epoch)]
      ensures disk.connects == old(disk.connects) + 1
      ensures old(Healthy()) ==> Healthy() && o == verdict && disk.session.value.protected == protects
    {
      Here();
      ReplaySound(disk);
      Note(disk.(connects := disk.connects + 1,
                 replays := disk.replays + [(disk.session.value.id, disk.session.value.epoch)]));
      o := RunConnect();
    }

    /** persistNetworkSessionReplayFailure: the failure becomes the current evidence. */
    method SaveReplayFailure(o: ConnectOutcome)
      requires Valid() && SessionNow(disk) && o.Down? && CurrentEvidence(disk).None?
      requires (disk.session.value.id, disk.session.value.epoch) in disk.replays
      modifies `disk, `history, `alive
      ensures Valid() && disk.(diagnostic := old(disk.diagnostic)) == old(disk)
      ensures old(Healthy()) ==> Healthy() && OnRecord(disk, EvidenceFor(disk.session.value, o))
    {
      var read := Foreign();
      if !read { return; }
      var e := Evidence(disk.session.value.id, disk.session.value.epoch,
                        o.disposition, o.mutation, o.rollback, o.transactionPresent, o.transaction);
      Here();
      EvidenceSound(disk, e);
      var _ := Write(WithEvidence(disk, e));
    }

    /** Replays a resumable session unless evidence forbids it. */
    method ReplaySession() returns (r: ResumeResult)
      requires Valid() && SessionNow(disk) && disk.session.value.intent.Resume?
      modifies `disk, `history, `alive
      ensures Valid() && SameStores(old(disk), disk)
      ensures SessionNow(disk) && disk.session.value.request == old(disk).session.value.request
      ensures r.TerminalConverged? ==> !disk.session.value.intent.Resume?
      ensures !r.NoSession?
      ensures old(Healthy()) ==> Healthy() && Replayed(old(disk), disk, r, verdict, protects)
    {
      var read := Foreign();
      if !read { SaveLatestBlocker(); return ResumeFailed; }
      EvidenceReads(disk);
      var evidence := CurrentEvidence(disk);
      if evidence.Some? && evidence.value.disposition.TerminalReplay? {
        r := EndOnRecord(evidence.value);
      } else {
        r := ReplayOnce();
      }
    }

    /** Recorded terminal evidence ends the session, or is reported as a blocker. */
    method EndOnRecord(e: Evidence) returns (r: ResumeResult)
      requires Valid() && OnRecord(disk, e) && e.disposition.TerminalReplay? && disk.session.value.intent.Resume?
      modifies `disk, `history, `alive
      ensures Valid() && SameStores(old(disk), disk)
      ensures disk.replays == old(disk.replays) && disk.connects == old(disk.connects)
      ensures SessionNow(disk) && disk.session.value.request == old(disk).session.value.request
      ensures r.TerminalConverged? ==> !disk.session.value.intent.Resume?
      ensures r.TerminalConverged? || r.ResumeFailed?
      ensures old(Healthy()) ==> Healthy()
      ensures old(Healthy()) ==>
        if Ends(old(disk).session.value, e) then r.TerminalConverged? && EndedFrom(old(disk).session.value, disk)
        else r.ResumeFailed? && SessionIs(disk, old(disk).session.value)
    {
      EvidenceReads(disk);
      var ended := Terminalize(e);
      if ended { return TerminalConverged; }
      SaveLatestBlocker();
      return ResumeFailed;
    }

    /** Replays once under a new epoch, unless an incomplete replay is on record. */
    method ReplayOnce() returns (r: ResumeResult)
      requires Valid() && SessionNow(disk) && disk.session.value.intent.Resume?
      requires CurrentEvidence(disk).Some? ==> !CurrentEvidence(disk).value.disposition.TerminalReplay?
      modifies `disk, `history, `alive
      ensures Valid() && SameStores(old(disk), disk)
      ensures SessionNow(disk) && disk.session.value.request == old(disk).session.value.request
      ensures r.TerminalConverged? ==> !disk.session.value.intent.Resume?
      ensures !r.NoSession?
      ensures old(Healthy()) ==> Healthy() && OnceReplayed(old(disk), disk, r, verdict, protects)
    {
      EvidenceReads(disk);
      var admitted, blocked := AdmitReplay();
      if blocked { return ResumeFailed; }
      if !admitted { SaveLatestBlocker(); return ResumeFailed; }
      r := ReplayAdmitted();
    }

    method ReplayAdmitted() returns (r: ResumeResult)
      requires Valid() && SessionNow(disk) && disk.session.value.intent.Resume? && CurrentEvidence(disk).None?
      requires (disk.session.value.id, disk.session.value.epoch) !in disk.replays
      modifies `disk, `history, `alive
      ensures Valid() && SameStores(old(disk), disk)
      ensures SessionNow(disk) && disk.session.value.request == old(disk).session.value.request
      ensures r.TerminalConverged? ==> !disk.session.value.intent.Resume?
      ensures !r.NoSession?
      ensures old(Healthy()) ==> Healthy() && ReplayedOnce(old(disk), disk, r, verdict, protects)
    {
      var o := Replay();
      if o.Up? {
        var _ := ForgetEvidence();
        return Resumed;
      }
      r := AfterFailedReplay(o);
    }

    method AfterFailedReplay(o: ConnectOutcome) returns (r: ResumeResult)
      requires Valid() && SessionNow(disk) && disk.session.value.intent.Resume? && o.Down?
      requires CurrentEvidence(disk).None? && (disk.session.value.id, disk.session.value.epoch) in disk.replays
      modifies `disk, `history, `alive
      ensures Valid() && SameStores(old(disk), disk)
      ensures SessionNow(disk) && disk.session.value.request == old(disk).session.value.request
      ensures r.TerminalConverged? ==> !disk.session.value.intent.Resume?
      ensures !r.NoSession? && !r.Resumed?
      ensures disk.replays == old(disk.replays) && disk.connects == old(disk.connects)
      ensures old(Healthy()) ==> Healthy() && AfterFailure(old(disk).session.value, disk, r, o)
    {
      SaveReplayFailure(o);
      var read := Foreign();
      EvidenceReads(disk);
      var evidence := CurrentEvidence(disk);
      if !read || evidence.None? || !evidence.value.disposition.TerminalReplay? { return ResumeFailed; }
      var recovered := Foreign();
      if !recovered { SaveLatestBlocker(); return ResumeFailed; }
      var ended := Terminalize(evidence.value);
      if ended { return TerminalConverged; }
      return ResumeFailed;
    }

    /** resumeNetworkSessionResult: what startup learns about the session it found. */
    method ResumeSession() returns (r: ResumeResult)
      requires Valid()
      modifies `disk, `history, `alive
      ensures Valid() && SameStores(old(disk), disk)
      ensures r.TerminalConverged? ==> SessionNow(disk) && !disk.session.value.intent.Resume?
      ensures r.NoSession? ==> disk.session.None? && disk.replays == old(disk.replays)
      ensures old(SessionNow(disk)) ==> SessionNow(disk)
      ensures old(disk.session.None?) ==> disk.session.None?
      ensures disk.connects != old(disk.connects) ==> old(SessionNow(disk) && disk.session.value.intent.Resume?)
      ensures old(Healthy()) ==> Healthy()
      ensures old(Healthy() && disk.session.None?) ==> r.NoSession?
      ensures old(Healthy() && SessionNow(disk) && disk.session.value.intent.Resume?) ==>
        Replayed(old(disk), disk, r, verdict, protects)
      ensures old(Healthy() && SessionNow(disk) && !disk.session.value.intent.Resume?) ==>
        && r.TerminalConverged? && disk.replays == old(disk.replays)
        && SessionIs(disk, old(disk).session.value.(protected := false))
    {
      var loaded := LoadSession();
      if loaded.Unreadable? { SaveLatestBlocker(); return ResumeFailed; }
      if loaded.Absent? {
        var recovered := Foreign();
        if !recovered { SaveLatestBlocker(); return ResumeFailed; }
        var ok := ForgetEvidence();
        return if ok then NoSession else ResumeFailed;
      }
      if loaded.session.intent.Resume? {
        var recovered := Foreign();
        if !recovered { SaveLatestBlocker(); return ResumeFailed; }
        r := ReplaySession();
        return;
      }
      var ok := ConvergeTeardown();
      if ok { return TerminalConverged; }
      SaveLatestBlocker();
      return ResumeFailed;
    }

    // -------------------------------------------------------------- boot autostart attempt

    /** loadCurrentLocked: an attempt of an earlier boot is discarded. */
    method LoadAttempt() returns (r: Option<Option<Attempt>>)
      requires Valid()
      modifies `disk, `history, `alive
      ensures Valid() && (disk == old(disk) || (disk == old(disk).(attempt := None) && !old(AttemptNow(disk))))
      ensures r.Some? && r.value.Some? ==> AttemptNow(disk) && disk == old(disk) && r.value == disk.attempt
      ensures r.Some? && r.value.None? ==> disk.attempt.None?
      ensures old(Healthy()) ==> Healthy() && r.Some?
    {
      var read := Foreign();
      if !read { return None; }
      if disk.attempt.None? { return Some(None); }
      if disk.attempt.value.boot == disk.boot { return Some(disk.attempt); }
      Here();
      var gone := Write(disk.(attempt := None));
      return if gone then Some(None) else None;
    }

    /** At most one attempt per boot, pinned to the manifest it was admitted from. */
    method Admit(m: Manifest) returns (ok: bool)
      requires Valid()
      modifies `disk, `history, `alive
      ensures Valid() && disk.(attempt := old(disk.attempt), admissions := old(disk.admissions)) == old(disk)
      ensures old(AttemptNow(disk)) ==> !ok && disk == old(disk)
      ensures ok ==>
        AttemptNow(disk) && disk.attempt == Some(Attempt(disk.boot, m.generation, InProgress, m.configuration))
      ensures disk.admissions != old(disk.admissions) ==>
        m.configuredBoot != disk.boot && disk.admissions == old(disk.admissions) + [AttemptFor(m, disk.boot)]
      ensures ok ==> disk.admissions != old(disk.admissions)
      ensures old(Healthy() && !AttemptNow(disk)) ==> Healthy() && (ok <==> m.configuredBoot != old(disk.boot))
    {
      Here();
      if !EligibleForBoot(m, disk.boot) { return false; }
      var current := LoadAttempt();
      if current.None? || current.value.Some? { return false; }
      var a := Attempt(disk.boot, m.generation, InProgress, m.configuration);
      Here();
      AdmitSound(disk, a);
      ok := Write(disk.(attempt := Some(a), admissions := disk.admissions + [a]));
    }

    /** MarkSucceeded and MarkTerminal: idempotent, and final. */
    method Complete(target: AttemptState) returns (ok: bool)
      requires Valid() && !target.InProgress?
      modifies `disk, `history, `alive
      ensures Valid() && disk.(attempt := old(disk.attempt)) == old(disk)
      ensures ok ==> AttemptNow(disk) && disk.attempt.value.state == target
      ensures old(AttemptNow(disk)) ==> AttemptNow(disk) && SameAttempt(old(disk).attempt.value, disk.attempt.value)
      ensures old(AttemptNow(disk) && !disk.attempt.value.state.InProgress?) ==>
        disk == old(disk) && (ok ==> old(disk).attempt.value.state == target)
      ensures old(Healthy() && AttemptNow(disk) && disk.attempt.value.state.InProgress?) ==> Healthy() && ok
    {
      var current := LoadAttempt();
      if current.None? || current.value.None? { return false; }
      var a := current.value.value;
      if a.state == target { return true; }
      if !a.state.InProgress? { return false; }
      Here();
      CompleteSound(disk, target);
      ok := Write(disk.(attempt := Some(a.(state := target))));
    }

    // -------------------------------------------------------------- startup

    /** The terminal outcome of the attempt is durable before the session record may go. */
    method CompleteTerminal(reason: Reason) returns (r: StartupResult)
      requires Valid() && AttemptNow(disk)
      modifies `disk, `history, `alive
      ensures Valid() && disk.connects == old(disk.connects) && disk.boot == old(disk.boot)
      ensures r.EndedTerminal? ==> EndedWith(disk, reason)
      ensures r.EndedTerminal? || r.RecoveryFailed?
      ensures disk.admissions == old(disk.admissions) && disk.replays == old(disk.replays)
      ensures old(Healthy() && Underway(disk) && (SessionNow(disk) ==> !disk.session.value.protected)) ==>
        Healthy() && r.EndedTerminal? && disk.session.None?
    {
      var ended := Complete(Ended(reason));
      if !ended { return RecoveryFailed; }
      var published := Foreign();
      if !published { return RecoveryFailed; }
      var _ := Finalize();
      return EndedTerminal;
    }

    /** convergeAndCompleteBootAutostartTerminal. */
    method ConvergeAndComplete(reason: Reason) returns (r: StartupResult)
      requires Valid() && AttemptNow(disk)
      modifies `disk, `history, `alive
      ensures Valid() && disk.connects == old(disk.connects) && disk.boot == old(disk.boot)
      ensures r.EndedTerminal? ==> EndedWith(disk, reason)
      ensures r.EndedTerminal? || r.RecoveryFailed?
      ensures disk.admissions == old(disk.admissions) && disk.replays == old(disk.replays)
      ensures old(Healthy() && Underway(disk) && SessionNow(disk) && !disk.session.value.intent.Resume?) ==>
        Healthy() && r.EndedTerminal? && disk.session.None?
    {
      var converged := ConvergeTeardown();
      if !converged { return RecoveryFailed; }
      r := CompleteTerminal(reason);
    }

    /** completeBootAutostartResumeResult, for the results that end this startup. */
    method CompleteResume(attempt: Option<Attempt>, result: ResumeResult) returns (r: StartupResult)
      requires Valid() && (result.Resumed? || result.TerminalConverged?)
      requires attempt == (if AttemptNow(disk) then disk.attempt else None)
      modifies `disk, `history, `alive
      ensures Valid() && disk.connects == old(disk.connects) && disk.boot == old(disk.boot)
      ensures r.EndedTerminal? ==> EndedWith(disk, SessionFailure) && result.TerminalConverged?
      ensures r.Continued? && result.Resumed? && attempt.Some? ==>
        AttemptNow(disk) && !disk.attempt.value.state.InProgress?
      ensures r.EndedTerminal? || r.Continued? || r.RecoveryFailed?
      ensures old(Healthy() && (result.TerminalConverged? && SessionNow(disk) ==> !disk.session.value.protected)) ==>
        Healthy() && CompletedFrom(old(disk), disk, result, r)
    {
      var inProgress := attempt.Some? && attempt.value.state.InProgress?;
      if result.Resumed? {
        if !inProgress { return Continued; }
        var marked := Complete(Succeeded);
        return if marked then Continued else RecoveryFailed;
      }
      if inProgress {
        r := CompleteTerminal(SessionFailure);
        return;
      }
      if attempt.Some? && attempt.value.state.Ended? {
        var published := Foreign();
        if !published { return RecoveryFailed; }
      }
      var cleared := Finalize();
      return if cleared then Continued else RecoveryFailed;
    }

    /** continueBootAutostartAttempt: readiness, armed session, one Connect, terminal completion. */
    method ContinueAttempt(id: string) returns (r: StartupResult)
      requires Valid() && AttemptNow(disk) && disk.attempt.value.state.InProgress? && disk.session.None?
      requires FreshId(disk, id)
      modifies `disk, `history, `alive
      ensures Valid() && disk.boot == old(disk.boot)
      ensures r.Connected? ==>
        Settled(disk, old(disk).attempt.value.configuration) && disk.connects == old(disk.connects) + 1
      ensures r.EndedTerminal? ==>
        EndedWith(disk, ConnectFailed) || (EndedWith(disk, NetworkNotReady) && disk.connects == old(disk.connects))
      ensures disk.connects <= old(disk.connects) + 1 && !r.Noop?
      ensures old(Healthy()) ==> Healthy() && Attempted(old(disk), disk, r, uplink, verdict)
      ensures disk.admissions == old(disk.admissions) && disk.replays == old(disk.replays)
    {
      var request := disk.attempt.value.configuration;
      var ready := AwaitNetwork();
      if ready.Cancelled? { return Continued; }
      if ready.Unobserved? { return RecoveryFailed; }
      if ready.TimedOut? {
        r := EndBeforeConnect(request, id);
        return;
      }
      var armed := SaveSession(request, id);
      if !armed { return RecoveryFailed; }
      var o := ConnectOnce();
      if o.Up? {
        var marked := Complete(Succeeded);
        return if marked then Connected else RecoveryFailed;
      }
      if o.disposition.Interrupted? { return Continued; }
      var disarmed := Disarm(Terminal);
      if !disarmed { return RecoveryFailed; }
      r := ConvergeAndComplete(ConnectFailed);
    }

    /** Waits for fresh usable uplink evidence, for a bounded time. */
    method AwaitNetwork() returns (u: Readiness)
      requires Valid()
      modifies `alive
      ensures u.Ready? ==> alive
      ensures !old(alive) ==> !alive
      ensures old(Healthy()) ==> Healthy() && u == uplink
    {
      var observed := Foreign();
      if !faults && observed { return uplink; }
      u := *;
      if u.Ready? && !observed { u := Unobserved; }
    }

    /** Calls Connect for the armed session. */
    method ConnectOnce() returns (o: ConnectOutcome)
      requires Valid() && SessionNow(disk) && disk.session.value.intent.Resume?
      modifies `disk, `history, `alive
      ensures Valid() && SameButSession(old(disk).(connects := old(disk).connects + 1), disk)
      ensures SessionNow(disk)
      ensures disk.session.value.(protected := old(disk).session.value.protected) == old(disk).session.value
      ensures old(Healthy()) ==> Healthy() && o == verdict
    {
      Here();
      ConnectSound(disk);
      Note(disk.(connects := disk.connects + 1));
      o := RunConnect();
    }

    /** Nothing was connected: still, terminal authority first, then the attempt's end, then cleanup. */
    method EndBeforeConnect(request: string, id: string) returns (r: StartupResult)
      requires Valid() && AttemptNow(disk) && disk.attempt.value.state.InProgress? && disk.session.None?
      requires FreshId(disk, id)
      requires request == disk.attempt.value.configuration
      modifies `disk, `history, `alive
      ensures Valid() && disk.connects == old(disk.connects) && disk.boot == old(disk.boot)
      ensures r.EndedTerminal? ==> EndedWith(disk, NetworkNotReady)
      ensures r.EndedTerminal? || r.RecoveryFailed?
      ensures disk.admissions == old(disk.admissions) && disk.replays == old(disk.replays)
      ensures old(Healthy()) ==> Healthy() && r.EndedTerminal? && disk.session.None?
    {
      var armed := SaveSession(request, id);
      if !armed { return RecoveryFailed; }
      var disarmed := Disarm(Terminal);
      if !disarmed { return RecoveryFailed; }
      r := CompleteTerminal(NetworkNotReady);
    }

    /** runBootAutostartStartup: continuation first, then at most one fresh attempt per boot. */
    method RunStartup(id: string) returns (r: StartupResult)
      requires Valid() && FreshId(disk, id)
      modifies `disk, `history, `alive
      ensures Valid() && disk.boot == old(disk.boot)
      ensures old(Doomed(disk)) ==> disk.connects == old(disk.connects)
      ensures r.Connected? ==> AttemptNow(disk) && Settled(disk, disk.attempt.value.configuration)
      ensures r.EndedTerminal? ==> AttemptNow(disk) && disk.attempt.value.state.Ended?
      ensures r.Noop? ==> disk.connects == old(disk.connects)
      ensures old(Healthy()) ==> Healthy() && Started(old(disk), disk, r, uplink, verdict, protects)
    {
      var loaded := LoadSession();
      if loaded.Unreadable? { return RecoveryFailed; }
      var current := LoadAttempt();
      if current.None? { return Blocked; }
      assert old(Healthy()) ==> disk == Current(old(disk));
      if loaded.Found? {
        r := StartWithSession(current.value);
      } else {
        r := StartWithout(current.value, id);
      }
      if old(Healthy()) { CurrentMatters(old(disk), disk, r, uplink, verdict, protects); }
    }

    /** A session was found: it is resumed or torn down, and never followed by a fresh attempt. */
    method StartWithSession(attempt: Option<Attempt>) returns (r: StartupResult)
      requires Valid() && SessionNow(disk) && attempt == (if AttemptNow(disk) then disk.attempt else None)
      modifies `disk, `history, `alive
      ensures Valid() && disk.boot == old(disk.boot)
      ensures old(Doomed(disk)) ==> disk.connects == old(disk.connects)
      ensures r.EndedTerminal? ==> AttemptNow(disk) && disk.attempt.value.state.Ended?
      ensures !r.Connected? && !r.Noop?
      ensures old(Healthy()) ==> Healthy() && Started(old(disk), disk, r, uplink, verdict, protects)
    {
      var s := disk.session.value;
      if attempt.Some? && attempt.value.state.InProgress? && s.intent.Terminal? {
        r := ConvergeAndComplete(SessionFailure);
        return;
      }
      var result := ResumeSession();
      ghost var resumed := disk;
      if result.ResumeFailed? {
        r := RecoveryFailed;
      } else if result.NoSession? {
        r := Continued;
      } else {
        r := CompleteResume(attempt, result);
      }
      assert old(Healthy()) && s.intent.Resume? ==>
        Replayed(old(disk), resumed, result, verdict, protects) && CompletedFrom(resumed, disk, result, r);
    }

    /** No session: orphans are recovered, then the boot's one attempt is continued or admitted. */
    method StartWithout(attempt: Option<Attempt>, id: string) returns (r: StartupResult)
      requires Valid() && FreshId(disk, id) && disk.session.None? && attempt == disk.attempt
      requires attempt == (if AttemptNow(disk) then disk.attempt else None)
      modifies `disk, `history, `alive
      ensures Valid() && disk.boot == old(disk.boot)
      ensures old(Doomed(disk)) ==> disk.connects == old(disk.connects)
      ensures r.Connected? ==> AttemptNow(disk) && Settled(disk, disk.attempt.value.configuration)
      ensures r.EndedTerminal? ==> AttemptNow(disk) && disk.attempt.value.state.Ended?
      ensures r.Noop? ==> disk.connects == old(disk.connects)
      ensures old(Healthy()) ==> Healthy() && Started(old(disk), disk, r, uplink, verdict, protects)
    {
      var result := ResumeSession();
      if !result.NoSession? { return RecoveryFailed; }
      if attempt.None? {
        r := StartFresh(id);
      } else if attempt.value.state.InProgress? {
        r := ContinueAttempt(id);
      } else {
        return Noop;
      }
    }

    /** No session and no attempt: admit one if an eligible manifest asks for it. */
    method StartFresh(id: string) returns (r: StartupResult)
      requires Valid() && disk.session.None? && FreshId(disk, id)
      modifies `disk, `history, `alive
      ensures Valid() && disk.boot == old(disk.boot)
      ensures r.Connected? ==> AttemptNow(disk) && Settled(disk, disk.attempt.value.configuration)
      ensures r.EndedTerminal? ==> AttemptNow(disk) && disk.attempt.value.state.Ended?
      ensures r.Noop? ==> disk == old(disk)
      ensures old(disk.manifest.None? || disk.manifest.value.configuredBoot == disk.boot) ==> disk == old(disk)
      ensures old(Healthy() && disk.attempt.None?) ==> Healthy() && FreshlyStarted(old(disk), disk, r, uplink, verdict)
    {
      Here();
      var read := Foreign();
      if !read { return Blocked; }
      if disk.manifest.None? || !EligibleForBoot(disk.manifest.value, disk.boot) { return Noop; }
      var admitted := Admit(disk.manifest.value);
      if !admitted { return Blocked; }
      r := ContinueAttempt(id);
    }

    // -------------------------------------------------------------- the world outside

    method Reboot(boot: string)
      requires Valid() && FreshBoot(disk, boot)
      modifies `disk, `history, `alive
      ensures Valid() && disk == old(disk).(boot := boot, userActed := false, busy := false)
    {
      Here();
      RebootSound(disk, boot);
      Note(disk.(boot := boot, userActed := false, busy := false));
      alive := true;
    }

    method Configure(m: Option<Manifest>)
      requires Valid()
      modifies `disk, `history, `alive
      ensures Valid()
    {
      Here();
      ManifestSound(disk, m);
      Note(disk.(manifest := m));
    }

    /** A request arrives, is served, and is over, whether it succeeded or the daemon died. */
    method BeginRequest()
      requires Valid()
      modifies `disk, `history
      ensures Valid() && disk == old(disk).(userActed := true, busy := true)
    {
      Here();
      UserSound(disk);
      Note(disk.(userActed := true, busy := true));
    }

    method EndRequest()
      requires Valid()
      modifies `disk, `history
      ensures Valid() && disk == old(disk).(busy := false)
    {
      Here();
      UserSound(disk);
      Note(disk.(busy := false));
    }

    /** A user connects: from now on sessions need not be the attempt's. */
    method UserConnect(request: string, id: string)
      requires Valid() && FreshId(disk, id)
      modifies `disk, `history, `alive
      ensures Valid() && !disk.busy
    {
      BeginRequest();
      var saved := SaveSession(request, id);
      if saved { var _ := RunConnect(); }
      EndRequest();
    }

    /** The boot attempt is left as it is. */
    method UserDisconnect()
      requires Valid()
      modifies `disk, `history, `alive
      ensures Valid() && !disk.busy && disk.boot == old(disk.boot) && disk.attempt == old(disk.attempt)
      ensures disk.connects == old(disk.connects) && disk.replays == old(disk.replays)
      ensures old(Healthy() && SessionNow(disk)) ==> Healthy() && disk.session.None?
    {
      BeginRequest();
      ServeDisconnect();
      EndRequest();
    }

    method ServeDisconnect()
      requires Valid() && disk.busy
      modifies `disk, `history, `alive
      ensures Valid() && SameAttempts(old(disk), disk) && disk.connects == old(disk.connects)
      ensures old(Healthy() && SessionNow(disk)) ==> Healthy() && disk.session.None?
    {
      var disarmed := Disarm(Disconnect);
      if !disarmed { return; }
      var converged := ConvergeTeardown();
      if converged { var _ := Finalize(); }
    }

    /**
     A disconnect that runs to its end, and then a restart. The attempt decides: over, it stays
     over; still in progress, it is taken up again and connects against the user's wish.
     */
    method DisconnectThenRestart(id: string) returns (r: StartupResult)
      requires Valid() && Healthy() && SessionNow(disk) && AttemptNow(disk) && FreshId(disk, id)
      modifies `disk, `history, `alive
      ensures Valid()
      ensures disk.connects != old(disk.connects) <==> old(disk).attempt.value.state.InProgress? && uplink.Ready?
      ensures old(disk).attempt.value.state.InProgress? && uplink.Ready? && verdict.Up? ==> r.Connected?
    {
      UserDisconnect();
      r := RunStartup(id);
    }

    /** Any number of startups, crashes, reboots and requests keeps the history sound. */
    method Run(commands: seq<Command>)
      requires Valid()
      modifies this
      ensures Valid() && old(history) <= history
    {
      anchor := history;
      for i := 0 to |commands|
        invariant Valid() && anchor == old(history)
      {
        match commands[i]
        case Startup(id) =>
          alive := true;
          if forall k :: 0 <= k < |disk.replays| ==> disk.replays[k].0 != id { var _ := RunStartup(id); }
        case Reboot(boot) =>
          if FreshBootHere(boot) { Reboot(boot); }
        case Configure(m) => Configure(m);
        case UserConnect(request, id) =>
          if forall k :: 0 <= k < |disk.replays| ==> disk.replays[k].0 != id { UserConnect(request, id); }
        case UserDisconnect => UserDisconnect();
      }
    }

    predicate FreshBootHere(boot: string)
      reads this
      ensures FreshBootHere(boot) ==> FreshBoot(disk, boot)
    {
      && boot != "" && boot != disk.boot && (disk.session.Some? ==> disk.session.value.boot != boot)
      && (disk.attempt.Some? ==> disk.attempt.value.boot != boot)
      && (disk.diagnostic.Some? ==> disk.diagnostic.value.boot != boot)
      && forall i :: 0 <= i < |disk.admissions| ==> disk.admissions[i].boot != boot
    }
  }
}
