/**
 What survives a daemon: the session record, the boot-autostart attempt, the replay diagnostic and
 the autostart manifest. This file states which durable states are sound and which single writes
 are allowed, and draws the conclusions for whole histories of startups.
 */
module StartupState {
  import opened Wrappers
  import opened Intents
  import Runs

  /** `protected`: exact envelope authority is recorded. */
  datatype Session = Session(boot: string, id: string, epoch: nat, intent: Intent, request: string, protected: bool)

  datatype Reason = ConnectFailed | SessionFailure | NetworkNotReady

  datatype AttemptState = InProgress | Succeeded | Ended(reason: Reason)

  datatype Attempt = Attempt(boot: string, generation: string, state: AttemptState, configuration: string)

  datatype Manifest = Manifest(generation: string, configuredBoot: string, configuration: string)

  datatype Disposition = TerminalReplay | Retryable | Interrupted | IncompleteReplay

  datatype Mutation = NotOpened | RolledBack | Unresolved

  datatype Rollback = NoRollback | NotStarted | Completed | Failed

  datatype Evidence = Evidence(
    session: string, epoch: nat, disposition: Disposition, mutation: Mutation, rollback: Rollback,
    transactionPresent: bool, transaction: string)

  datatype Diagnostic = Diagnostic(boot: string, originating: Option<Evidence>, current: Option<Evidence>)

  /** The fields after `manifest` record what happened; no code reads them. */
  datatype Disk = Disk(
    boot: string,
    session: Option<Session>,
    attempt: Option<Attempt>,
    diagnostic: Option<Diagnostic>,
    manifest: Option<Manifest>,
    replays: seq<(string, nat)>,   // session and epoch of every admitted replay
    admissions: seq<Attempt>,      // every attempt ever admitted
    connects: nat,                 // Connect calls made by startup
    userActed: bool,               // a request reached the daemon in this boot
    busy: bool                     // a request is being served
  )

  predicate SessionNow(d: Disk) {
    d.session.Some? && d.session.value.boot == d.boot
  }

  predicate AttemptNow(d: Disk) {
    d.attempt.Some? && d.attempt.value.boot == d.boot
  }

  predicate DiagnosticNow(d: Disk) {
    d.diagnostic.Some? && d.diagnostic.value.boot == d.boot
  }

  predicate SameAttempt(a: Attempt, b: Attempt) {
    a.boot == b.boot && a.generation == b.generation && a.configuration == b.configuration
  }

  predicate EligibleForBoot(m: Manifest, boot: string) {
    boot != "" && m.configuredBoot != boot
  }

  /** currentNetworkSessionReplayAttempt: evidence of this very session and epoch. */
  function CurrentEvidence(d: Disk): Option<Evidence> {
    if SessionNow(d) && DiagnosticNow(d) && d.diagnostic.value.current.Some?
       && d.diagnostic.value.current.value.session == d.session.value.id
       && d.diagnostic.value.current.value.epoch == d.session.value.epoch
    then d.diagnostic.value.current
    else None
  }

  /** networkSessionTerminalAttemptCleanupSafe. */
  predicate CleanupSafe(e: Evidence) {
    && e.disposition.TerminalReplay?
    && (|| (e.mutation.NotOpened? && e.rollback.NotStarted? && !e.transactionPresent)
        || (e.mutation.RolledBack? && e.rollback.Completed?))
  }

  // ---------------------------------------------------------------- sound states

  /** Replays of one session carry strictly increasing epochs, none beyond the recorded one. */
  ghost predicate EpochsClimb(d: Disk) {
    && (forall i, j :: 0 <= i < j < |d.replays| && d.replays[i].0 == d.replays[j].0 ==> d.replays[i].1 < d.replays[j].1)
    && (d.session.Some? ==>
          forall i :: 0 <= i < |d.replays| && d.replays[i].0 == d.session.value.id ==>
            d.replays[i].1 <= d.session.value.epoch)
  }

  /** Each boot admitted at most one attempt, and this boot's is still on disk. */
  ghost predicate OneAttempt(d: Disk) {
    && (forall i, j :: 0 <= i < j < |d.admissions| ==> d.admissions[i].boot != d.admissions[j].boot)
    && (forall i :: 0 <= i < |d.admissions| && d.admissions[i].boot == d.boot ==>
          AttemptNow(d) && SameAttempt(d.attempt.value, d.admissions[i]))
    && (AttemptNow(d) ==> exists i :: 0 <= i < |d.admissions| && d.admissions[i].boot == d.boot)
  }

  /** Teardown is durable for the attempt's session, or the attempt is over and its session gone. */
  predicate Doomed(d: Disk) {
    AttemptNow(d) && if SessionNow(d) then !d.session.value.intent.Resume? else !d.attempt.value.state.InProgress?
  }

  /** Without requests, a session is the attempt's, with its pinned configuration. */
  ghost predicate Pinned(d: Disk) {
    !d.userActed && SessionNow(d) ==> AttemptNow(d) && d.session.value.request == d.attempt.value.configuration
  }

  /** Evidence on record is about a replay that took place. */
  ghost predicate EvidenceLogged(d: Disk) {
    d.diagnostic.Some? && d.diagnostic.value.current.Some? ==>
      (d.diagnostic.value.current.value.session, d.diagnostic.value.current.value.epoch) in d.replays
  }

  ghost predicate Inv(d: Disk) {
    && d.boot != "" && (d.busy ==> d.userActed)
    && EpochsClimb(d) && OneAttempt(d) && Pinned(d) && EvidenceLogged(d)
  }

  ghost predicate Sound(a: Disk, b: Disk) {
    Inv(b) && Allowed(a, b)
  }

  // ---------------------------------------------------------------- allowed writes

  /** An admitted attempt keeps its configuration; a final state never changes. */
  ghost predicate AttemptMoves(a: Disk, b: Disk) {
    AttemptNow(a) && b.boot == a.boot ==>
      && AttemptNow(b) && SameAttempt(a.attempt.value, b.attempt.value)
      && (!a.attempt.value.state.InProgress? ==> b.attempt == a.attempt)
  }

  ghost predicate SessionMoves(a: Disk, b: Disk) {
    a.session.Some? && b.session.Some? && a.session.value.id == b.session.value.id ==>
      && a.session.value.epoch <= b.session.value.epoch
      && IntentRank(a.session.value.intent) <= IntentRank(b.session.value.intent)
  }

  /**
   Why a resumable session may end for good: a replay of this very session and epoch took place,
   failed for good and left nothing behind the envelope, or the boot attempt is still deciding.
   */
  ghost predicate MayEnd(d: Disk) {
    || (&& SessionNow(d) && d.session.value.protected && (d.session.value.id, d.session.value.epoch) in d.replays
        && exists e :: OnRecord(d, e) && LeftNothing(e))
    || (AttemptNow(d) && d.attempt.value.state.InProgress?)
  }

  /** The diagnostic of this boot is about the replay of the current session under its current epoch. */
  ghost predicate OnRecord(d: Disk, e: Evidence) {
    && d.session.Some? && d.session.value.boot == d.boot && d.diagnostic.Some? && d.diagnostic.value.boot == d.boot
    && d.diagnostic.value.current == Some(e) && e.session == d.session.value.id && e.epoch == d.session.value.epoch
  }

  /** The replay failed for good, and either never touched the network or was rolled back completely. */
  predicate LeftNothing(e: Evidence) {
    && e.disposition == TerminalReplay
    && (|| (e.mutation == NotOpened && e.rollback == NotStarted && e.transactionPresent == false)
        || (e.mutation == RolledBack && e.rollback == Completed))
  }

  lemma EvidenceReads(d: Disk)
    ensures forall e :: CurrentEvidence(d) == Some(e) <==> OnRecord(d, e)
    ensures forall e :: CleanupSafe(e) <==> LeftNothing(e)
    ensures Frozen(d) <==> exists e :: OnRecord(d, e) && e.disposition == IncompleteReplay
  {
    if Frozen(d) { assert OnRecord(d, CurrentEvidence(d).value); }
  }

  ghost predicate TerminalJustified(a: Disk, b: Disk) {
    && SessionNow(a) && SessionNow(b) && a.session.value.id == b.session.value.id
    && a.session.value.intent.Resume? && b.session.value.intent.Terminal?
    ==> MayEnd(a)
  }

  /** Replay evidence gives way only to evidence of a later replay, or goes with the whole record. */
  ghost predicate EvidenceMoves(a: Disk, b: Disk) {
    DiagnosticNow(a) && DiagnosticNow(b) && a.boot == b.boot ==>
      var x, y := a.diagnostic.value, b.diagnostic.value;
      || (y.current == x.current && y.originating == x.originating)
      || (&& y.current.Some? && (y.current.value.session, y.current.value.epoch) in b.replays
          && (x.originating.Some? ==> y.originating == x.originating))
  }

  /** A recorded incomplete replay of the current session and epoch. */
  predicate Frozen(d: Disk) {
    CurrentEvidence(d).Some? && CurrentEvidence(d).value.disposition.IncompleteReplay?
  }

  ghost predicate ReplayMoves(a: Disk, b: Disk) {
    && a.replays <= b.replays
    && (Frozen(a) ==> b.replays == a.replays)
    && (Frozen(a) && SessionNow(b) && b.session.value.id == a.session.value.id ==> Frozen(b))
  }

  ghost predicate ConnectMoves(a: Disk, b: Disk) {
    && a.connects <= b.connects
    && (b.connects != a.connects ==> !Doomed(a))
    && (b.boot == a.boot && Doomed(a) && !(a.busy && b.busy) ==> Doomed(b))
    && (b.boot == a.boot && a.userActed ==> b.userActed)
    && a.admissions <= b.admissions
  }

  ghost predicate Allowed(a: Disk, b: Disk) {
    && AttemptMoves(a, b) && SessionMoves(a, b) && TerminalJustified(a, b)
    && EvidenceMoves(a, b) && ReplayMoves(a, b) && ConnectMoves(a, b)
  }

  ghost predicate SoundHistory(h: seq<Disk>) {
    Runs.Chain(Inv, Allowed, h)
  }

  // ---------------------------------------------------------------- conclusions

  /** Over any number of crashes and restarts, a boot admits at most one attempt. */
  lemma AtMostOneAttempt(h: seq<Disk>, k: nat, i: nat, j: nat)
    requires SoundHistory(h) && k < |h| && i < |h[k].admissions| && j < |h[k].admissions|
    requires h[k].admissions[i].boot == h[k].admissions[j].boot
    ensures i == j
  {
    Runs.ChainAt(Inv, Allowed, h, k);
  }

  /** Within a boot the attempt's configuration is pinned and its final state never changes. */
  lemma AttemptFinal(h: seq<Disk>, i: nat, j: nat)
    requires SoundHistory(h) && i <= j < |h| && AttemptNow(h[i])
    requires forall k :: i <= k <= j ==> h[k].boot == h[i].boot
    ensures AttemptNow(h[j]) && SameAttempt(h[i].attempt.value, h[j].attempt.value)
    ensures !h[i].attempt.value.state.InProgress? ==> h[j].attempt == h[i].attempt
  {
    var boot, x := h[i].boot, h[i].attempt.value;
    var kept := (d: Disk) =>
      AttemptNow(d) && SameAttempt(x, d.attempt.value) && (!x.state.InProgress? ==> d.attempt == Some(x));
    forall a, b | Allowed(a, b) && a.boot == boot && b.boot == boot && kept(a) ensures kept(b) {
    }
    Runs.ChainKeeps(Inv, Allowed, (d: Disk) => d.boot == boot, kept, h, i, j);
  }

  /**
   Once the attempt is doomed, no startup of this boot connects for as long as no request is being
   served, whatever was asked for earlier.
   */
  lemma DoomedNeverConnects(h: seq<Disk>, i: nat, j: nat)
    requires SoundHistory(h) && i <= j < |h| && Doomed(h[i])
    requires forall k :: i <= k <= j ==> h[k].boot == h[i].boot && !h[k].busy
    ensures Doomed(h[j]) && h[j].connects == h[i].connects
  {
    var boot, c := h[i].boot, h[i].connects;
    var quiet := (d: Disk) => Doomed(d) && d.connects == c;
    var during := (d: Disk) => d.boot == boot && !d.busy;
    forall a, b | Allowed(a, b) && during(a) && during(b) && quiet(a) ensures quiet(b) {
    }
    Runs.ChainKeeps(Inv, Allowed, during, quiet, h, i, j);
  }

  predicate InForce(d: Disk, id: string, intent: Intent) {
    SessionNow(d) && d.session.value.id == id && d.session.value.intent == intent
  }

  /**
   A session that goes from resume straight to terminal did so for one of the two reasons, which
   held of that session, in that epoch, when it was still resumable.
   */
  lemma {:induction false} TerminalOnlyJustified(h: seq<Disk>, id: string, i: nat, j: nat) returns (k: nat)
    requires SoundHistory(h) && i <= j < |h| && InForce(h[i], id, Resume) && InForce(h[j], id, Terminal)
    requires forall m :: i <= m <= j ==> InForce(h[m], id, Resume) || InForce(h[m], id, Terminal)
    ensures i <= k < j && InForce(h[k], id, Resume) && InForce(h[k + 1], id, Terminal) && MayEnd(h[k])
    decreases j - i
  {
    if InForce(h[i + 1], id, Resume) {
      k := TerminalOnlyJustified(h, id, i + 1, j);
    } else {
      Runs.ChainAt(Inv, Allowed, h, i);
      k := i;
    }
  }

  /** No two replays of a session share an epoch, and later ones have larger epochs. */
  lemma EpochsStrict(h: seq<Disk>, k: nat, i: nat, j: nat)
    requires SoundHistory(h) && k < |h| && i < j < |h[k].replays| && h[k].replays[i].0 == h[k].replays[j].0
    ensures h[k].replays[i].1 < h[k].replays[j].1
  {
    Runs.ChainAt(Inv, Allowed, h, k);
  }

  /** A session whose incomplete replay is on record is never replayed again. */
  lemma IncompleteNeverReplayed(h: seq<Disk>, i: nat, j: nat, e: Evidence)
    requires SoundHistory(h) && i <= j < |h| && OnRecord(h[i], e) && e.disposition == IncompleteReplay
    requires forall k :: i <= k <= j ==> SessionNow(h[k]) && h[k].session.value.id == h[i].session.value.id
    ensures h[j].replays == h[i].replays && exists f :: OnRecord(h[j], f) && f.disposition == IncompleteReplay
  {
    EvidenceReads(h[i]);
    EvidenceReads(h[j]);
    var id, r := h[i].session.value.id, h[i].replays;
    var frozen := (d: Disk) => Frozen(d) && d.replays == r;
    var during := (d: Disk) => SessionNow(d) && d.session.value.id == id;
    forall a, b | Allowed(a, b) && during(a) && during(b) && frozen(a) ensures frozen(b) {
    }
    Runs.ChainKeeps(Inv, Allowed, during, frozen, h, i, j);
  }

  // ---------------------------------------------------------------- what each write keeps

  predicate FreshId(d: Disk, id: string) {
    forall i :: 0 <= i < |d.replays| ==> d.replays[i].0 != id
  }

  /** Changing a record in place: same session, intent no lower, epoch no lower, evidence untouched. */
  lemma SessionWriteSound(d: Disk, s: Session)
    requires Inv(d) && SessionNow(d) && s.boot == d.boot && s.id == d.session.value.id
    requires s.epoch == d.session.value.epoch && IntentRank(d.session.value.intent) <= IntentRank(s.intent)
    requires d.userActed || s.request == d.session.value.request
    requires d.session.value.intent.Resume? && s.intent.Terminal? ==> MayEnd(d)
    ensures Sound(d, d.(session := Some(s)))
  {
  }

  lemma EpochWriteSound(d: Disk)
    requires Inv(d) && SessionNow(d) && !Frozen(d)
    ensures Sound(d, d.(session := Some(d.session.value.(epoch := d.session.value.epoch + 1))))
  {
  }

  /** A new epoch has no evidence and was never replayed. */
  lemma EpochFresh(d: Disk, next: Disk)
    requires Inv(d) && SessionNow(d)
    requires next == d.(session := Some(d.session.value.(epoch := d.session.value.epoch + 1)))
    ensures CurrentEvidence(next).None? && (next.session.value.id, next.session.value.epoch) !in next.replays
  {
  }

  lemma FreshSessionSound(d: Disk, s: Session)
    requires Inv(d) && d.session.None? && s.boot == d.boot && s.intent.Resume? && FreshId(d, s.id)
    requires || d.busy
             || (AttemptNow(d) && d.attempt.value.state.InProgress? && s.request == d.attempt.value.configuration)
    ensures Sound(d, d.(session := Some(s)))
  {
  }

  lemma RemoveSessionSound(d: Disk)
    requires Inv(d) && (SessionNow(d) && AttemptNow(d) ==> d.busy || !d.attempt.value.state.InProgress?)
    ensures Sound(d, d.(session := None))
  {
  }

  lemma ReplaySound(d: Disk)
    requires Inv(d) && SessionNow(d) && d.session.value.intent.Resume? && !Frozen(d)
    requires (d.session.value.id, d.session.value.epoch) !in d.replays
    ensures Sound(d, d.(connects := d.connects + 1,
                        replays := d.replays + [(d.session.value.id, d.session.value.epoch)]))
  {
    var b := d.(connects := d.connects + 1, replays := d.replays + [(d.session.value.id, d.session.value.epoch)]);
    forall i, j | 0 <= i < j < |b.replays| && b.replays[i].0 == b.replays[j].0 ensures b.replays[i].1 < b.replays[j].1 {
      if j == |d.replays| { assert d.replays[i] in d.replays; }
    }
  }

  lemma ConnectSound(d: Disk)
    requires Inv(d) && SessionNow(d) && d.session.value.intent.Resume?
    ensures Sound(d, d.(connects := d.connects + 1))
  {
  }

  lemma BlockerSound(d: Disk)
    requires Inv(d)
    ensures Sound(d, d.(diagnostic := Some(Diagnostic(
      d.boot,
      if DiagnosticNow(d) then d.diagnostic.value.originating else None,
      if DiagnosticNow(d) then d.diagnostic.value.current else None))))
  {
  }

  function WithEvidence(d: Disk, e: Evidence): Disk {
    d.(diagnostic := Some(Diagnostic(d.boot,
      if DiagnosticNow(d) && d.diagnostic.value.originating.Some? then d.diagnostic.value.originating else Some(e),
      Some(e))))
  }

  lemma EvidenceSound(d: Disk, e: Evidence)
    requires Inv(d) && (e.session, e.epoch) in d.replays && !Frozen(d)
    ensures Sound(d, WithEvidence(d, e))
  {
  }

  lemma ForgetSound(d: Disk)
    requires Inv(d) && !Frozen(d)
    ensures Sound(d, d.(diagnostic := None))
  {
  }

  lemma AdmitSound(d: Disk, a: Attempt)
    requires Inv(d) && !AttemptNow(d) && a.boot == d.boot && a.state.InProgress?
    ensures Sound(d, d.(attempt := Some(a), admissions := d.admissions + [a]))
  {
    var b := d.(attempt := Some(a), admissions := d.admissions + [a]);
    assert b.admissions[|d.admissions|].boot == b.boot;
  }

  lemma CompleteSound(d: Disk, state: AttemptState)
    requires Inv(d) && AttemptNow(d) && d.attempt.value.state.InProgress? && !state.InProgress?
    ensures Sound(d, d.(attempt := Some(d.attempt.value.(state := state))))
  {
    assert forall i :: 0 <= i < |d.admissions| && d.admissions[i].boot == d.boot ==>
      SameAttempt(d.attempt.value, d.admissions[i]);
  }

  /** A boot id nothing on disk was written under. */
  ghost predicate FreshBoot(d: Disk, boot: string) {
    && boot != "" && boot != d.boot && (d.session.Some? ==> d.session.value.boot != boot)
    && (d.attempt.Some? ==> d.attempt.value.boot != boot)
    && (d.diagnostic.Some? ==> d.diagnostic.value.boot != boot)
    && forall i :: 0 <= i < |d.admissions| ==> d.admissions[i].boot != boot
  }

  lemma RebootSound(d: Disk, boot: string)
    requires Inv(d) && FreshBoot(d, boot)
    ensures Sound(d, d.(boot := boot, userActed := false, busy := false))
  {
  }

  lemma UserSound(d: Disk)
    requires Inv(d)
    ensures Sound(d, d.(userActed := true, busy := true)) && Sound(d, d.(busy := false))
  {
  }

  lemma ManifestSound(d: Disk, m: Option<Manifest>)
    requires Inv(d)
    ensures Sound(d, d.(manifest := m))
  {
  }

  // ---------------------------------------------------------------- a disconnect that does not last

  const PINNED := Manifest("g", "a", "vpn")

  /** A boot whose attempt was admitted and has not been completed yet. */
  const ADMITTED := Disk("b", None, Some(Attempt("b", "g", InProgress, "vpn")), None, Some(PINNED), [],
                         [Attempt("b", "g", InProgress, "vpn")], 0, false, false)

  lemma Extended(h: seq<Disk>, d: Disk)
    requires SoundHistory(h) && h != [] && Sound(h[|h| - 1], d)
    ensures SoundHistory(h + [d])
  {
    Runs.ChainGrows(Inv, Allowed, h, d);
  }

  lemma ToAdmitted() returns (h: seq<Disk>)
    ensures SoundHistory(h) && |h| == 3 && h[2] == ADMITTED && h[1] == ADMITTED.(attempt := None, admissions := [])
    ensures h[0] == Disk("b", None, None, None, None, [], [], 0, false, false)
  {
    var d0 := Disk("b", None, None, None, None, [], [], 0, false, false);
    var d1 := d0.(manifest := Some(PINNED));
    h := [d0];
    ManifestSound(d0, Some(PINNED));
    Extended(h, d1);
    AdmitSound(d1, Attempt("b", "g", InProgress, "vpn"));
    Extended(h + [d1], ADMITTED);
    h := h + [d1] + [ADMITTED];
  }

  /** A request disconnects the session on record and is over. */
  lemma Stopped(h: seq<Disk>, d: Disk) returns (g: seq<Disk>)
    requires SoundHistory(h) && h != [] && h[|h| - 1] == d && SessionNow(d) && d.session.value.intent.Resume?
    ensures SoundHistory(g) && |g| == |h| + 4 && g[..|h|] == h
    ensures var s := d.session.value.(intent := Disconnect);
      var stopping := d.(userActed := true, busy := true, session := Some(s));
      g[|h| + 1] == stopping && g[|h| + 2] == stopping.(session := None)
      && g[|h| + 3] == stopping.(session := None, busy := false) && g[|h|] == stopping.(session := d.session)
  {
    Runs.ChainAt(Inv, Allowed, h, |h| - 1);
    var s := d.session.value.(intent := Disconnect);
    var d1 := d.(userActed := true, busy := true);
    UserSound(d);
    Extended(h, d1);
    SessionWriteSound(d1, s);
    var d2 := d1.(session := Some(s));
    Extended(h + [d1], d2);
    g := Closed(h + [d1] + [d2], d2);
  }

  lemma Closed(h: seq<Disk>, d: Disk) returns (g: seq<Disk>)
    requires SoundHistory(h) && h != [] && h[|h| - 1] == d && SessionNow(d) && d.busy
    ensures SoundHistory(g) && g == h + [d.(session := None)] + [d.(session := None, busy := false)]
  {
    Runs.ChainAt(Inv, Allowed, h, |h| - 1);
    RemoveSessionSound(d);
    var gone := d.(session := None);
    Extended(h, gone);
    UserSound(gone);
    Extended(h + [gone], gone.(busy := false));
    g := h + [gone] + [gone.(busy := false)];
  }

  /** Startup saves the attempt's session. */
  lemma Opened(h: seq<Disk>, d: Disk, id: string) returns (g: seq<Disk>)
    requires SoundHistory(h) && h != [] && h[|h| - 1] == d && d.session.None? && FreshId(d, id)
    requires AttemptNow(d) && d.attempt.value.state.InProgress?
    ensures SoundHistory(g)
    ensures g == h + [d.(session := Some(Session(d.boot, id, 0, Resume, d.attempt.value.configuration, false)))]
  {
    Runs.ChainAt(Inv, Allowed, h, |h| - 1);
    var s := Session(d.boot, id, 0, Resume, d.attempt.value.configuration, false);
    FreshSessionSound(d, s);
    Extended(h, d.(session := Some(s)));
    g := h + [d.(session := Some(s))];
  }

  /** Such a history exists: an admitted attempt with its session saved. */
  lemma AttemptOpens() returns (h: seq<Disk>)
    ensures SoundHistory(h) && |h| == 4 && h[0] == Disk("b", None, None, None, None, [], [], 0, false, false)
    ensures InForce(h[3], "s", Resume) && AttemptNow(h[3]) && h[3].attempt.value.state.InProgress?
  {
    h := ToAdmitted();
    h := Opened(h, h[2], "s");
  }

  /** Startup saves the attempt's session and connects it. */
  lemma Reconnected(h: seq<Disk>, d: Disk, id: string) returns (g: seq<Disk>)
    requires SoundHistory(h) && h != [] && h[|h| - 1] == d && d.session.None? && FreshId(d, id)
    requires AttemptNow(d) && d.attempt.value.state.InProgress?
    ensures SoundHistory(g) && |g| == |h| + 2 && g[..|h|] == h && InForce(g[|h|], id, Resume)
    ensures g[|h|].(session := None) == d && g[|h| + 1] == g[|h|].(connects := d.connects + 1)
  {
    var saved := Opened(h, d, id);
    var e := saved[|h|];
    Runs.ChainAt(Inv, Allowed, saved, |h|);
    ConnectSound(e);
    Extended(saved, e.(connects := e.connects + 1));
    g := saved + [e.(connects := e.connects + 1)];
  }

  /**
   Wherever an attempt is in progress: a request that disconnects its session, and is over, leaves
   it in progress, and the next startup of the same boot saves and connects its configuration again.
   */
  lemma DisconnectUndone(h: seq<Disk>, d: Disk, id: string) returns (stopped: seq<Disk>, g: seq<Disk>)
    requires SoundHistory(h) && h != [] && h[|h| - 1] == d && SessionNow(d) && d.session.value.intent.Resume?
    requires AttemptNow(d) && d.attempt.value.state.InProgress? && FreshId(d, id)
    ensures SoundHistory(g) && |stopped| == |h| + 4 && |g| == |h| + 6 && g[..|h| + 4] == stopped && stopped[..|h|] == h
    ensures Doomed(stopped[|h| + 1]) && stopped[|h| + 1].busy && stopped[|h| + 3].session.None?
    ensures forall k :: |h| + 3 <= k < |g| ==> !g[k].busy && g[k].boot == d.boot
    ensures InForce(g[|h| + 4], id, Resume) && g[|h| + 5].connects == d.connects + 1
  {
    stopped := Stopped(h, d);
    var stop := stopped[|h| + 3];
    g := Reconnected(stopped, stop, id);
    assert g[|h| + 3] == stopped[|h| + 3];
  }
}
