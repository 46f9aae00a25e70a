/**
 The full-tunnel transaction runner: a staged apply in which every stage can fail, and the strict
 cleanup order behind every failure. The trace lists the stages that succeeded, in order.
 */
module Runner {
  datatype Event =
    | Preflighted | Began | ConfigRecorded
    | CoreStarted | CoreRecorded | CoreVerified
    | AddressBound | AddressRecorded
    | Applying                     // host networking may change from here on
    | Applied | ConnectivityOk
    | Arming                       // the envelope may change from here on
    | EnvelopeArmed | EnvelopeVerified
    | Committed
    | HostRolledBack | CoreStopped | ConfigsRemoved | RolledBack
    | EnvelopeCleaned

  datatype Phase =
    | PrivacyPreflight | CorePreflight | TransactionBegin | CoreStart | TunAddressVerify
    | NetworkApply | ConnectivityVerify | EnvelopeArm | EnvelopeVerify | EnvelopeConnectivity | Commit

  datatype RollbackStatus = NotStarted | Completed | Failed

  datatype Outcome = Active | Failure(phase: Phase, status: RollbackStatus)

  function Last(t: seq<Event>): Event
    requires t != []
  {
    t[|t| - 1]
  }

  /** What must immediately precede an event. */
  predicate Follows(required: bool, t: seq<Event>, e: Event) {
    match e
    case CoreStopped => t != [] && Last(t).HostRolledBack?
    case ConfigsRemoved => t != [] && Last(t).CoreStopped?
    case RolledBack => t != [] && Last(t).ConfigsRemoved?
    case EnvelopeCleaned => t != [] && Last(t).RolledBack?
    case EnvelopeArmed => t != [] && Last(t).Arming?
    case EnvelopeVerified => t != [] && Last(t).EnvelopeArmed?
    case Arming => t != [] && Last(t).ConnectivityOk?
    case Committed =>
      && t != [] && Last(t).ConnectivityOk?
      && (required ==> |t| > 1 && t[|t| - 2].EnvelopeVerified?)
    case _ => true
  }

  predicate InPlace(required: bool, t: seq<Event>, k: nat)
    requires k < |t|
  {
    Follows(required, t[..k], t[k])
  }

  /** Every event came in its place. */
  ghost predicate Ordered(required: bool, t: seq<Event>) {
    forall k: nat :: k < |t| ==> InPlace(required, t, k)
  }

  lemma Appended(required: bool, t: seq<Event>, e: Event)
    requires Ordered(required, t) && Follows(required, t, e)
    ensures Ordered(required, t + [e])
  {
    forall k: nat | k < |t + [e]| ensures InPlace(required, t + [e], k) {
      if k < |t| {
        assert InPlace(required, t, k) && (t + [e])[..k] == t[..k];
      } else {
        assert (t + [e])[..k] == t;
      }
    }
  }

  /** What immediately precedes an event of an ordered trace. */
  lemma PrecededBy(required: bool, t: seq<Event>, k: nat)
    requires Ordered(required, t) && k < |t|
    ensures t[k].CoreStopped? ==> k > 0 && t[k - 1].HostRolledBack?
    ensures t[k].ConfigsRemoved? ==> k > 0 && t[k - 1].CoreStopped?
    ensures t[k].RolledBack? ==> k > 0 && t[k - 1].ConfigsRemoved?
    ensures t[k].EnvelopeCleaned? ==> k > 0 && t[k - 1].RolledBack?
    ensures t[k].EnvelopeArmed? ==> k > 0 && t[k - 1].Arming?
    ensures t[k].EnvelopeVerified? ==> k > 0 && t[k - 1].EnvelopeArmed?
    ensures t[k].Committed? && required ==> k > 1 && t[k - 1].ConnectivityOk? && t[k - 2].EnvelopeVerified?
  {
    assert InPlace(required, t, k);
  }

  /** A finished rollback took its three steps in order. */
  lemma RolledBackInOrder(required: bool, t: seq<Event>, k: nat)
    requires Ordered(required, t) && k < |t| && t[k].RolledBack?
    ensures k >= 3 && t[k - 3..k] == [HostRolledBack, CoreStopped, ConfigsRemoved]
  {
    PrecededBy(required, t, k);
    PrecededBy(required, t, k - 1);
    PrecededBy(required, t, k - 2);
  }

  /** The envelope is never cleaned before host, core and configuration were rolled back, in that order. */
  lemma EnvelopeCleanedLast(required: bool, t: seq<Event>, k: nat)
    requires Ordered(required, t) && k < |t| && t[k].EnvelopeCleaned?
    ensures k >= 4 && t[k - 4..k] == [HostRolledBack, CoreStopped, ConfigsRemoved, RolledBack]
  {
    PrecededBy(required, t, k);
    RolledBackInOrder(required, t, k - 1);
    assert t[k - 4..k] == t[k - 4..k - 1] + [t[k - 1]];
  }

  /** A commit comes right after a connectivity check that came right after the envelope was armed and verified. */
  lemma CommittedBehindEnvelope(required: bool, t: seq<Event>, k: nat)
    requires Ordered(required, t) && k < |t| && t[k].Committed? && required
    ensures k >= 4 && t[k - 4..k] == [Arming, EnvelopeArmed, EnvelopeVerified, ConnectivityOk]
  {
    PrecededBy(required, t, k);
    PrecededBy(required, t, k - 2);
    PrecededBy(required, t, k - 3);
  }

  // ---------------------------------------------------------------- the stages of a run

  /** A stage and the phase a failure in it is reported under. */
  datatype Stage = Stage(event: Event, phase: Phase)

  /** The envelope is armed, verified, and proved not to break the tunnel. */
  const ENVELOPE_STAGES := [
    Stage(Arming, EnvelopeArm), Stage(EnvelopeArmed, EnvelopeArm), Stage(EnvelopeVerified, EnvelopeVerify),
    Stage(ConnectivityOk, EnvelopeConnectivity)]

  /** Everything a run does, in order. */
  function Stages(required: bool, addressed: bool): seq<Stage> {
    [ Stage(Preflighted, CorePreflight), Stage(Began, TransactionBegin), Stage(ConfigRecorded, CorePreflight),
      Stage(CoreStarted, CoreStart), Stage(CoreRecorded, CoreStart), Stage(CoreVerified, CoreStart),
      Stage(AddressBound, TunAddressVerify)]
    + (if addressed then [Stage(AddressRecorded, TunAddressVerify)] else [])
    + [Stage(Applying, NetworkApply), Stage(Applied, NetworkApply), Stage(ConnectivityOk, ConnectivityVerify)]
    + (if required then ENVELOPE_STAGES else [])
    + [Stage(Committed, Commit)]
  }

  /** The first `k` stages, as they appear in a trace. */
  function Done(stages: seq<Stage>, k: nat): seq<Event>
    requires k <= |stages|
  {
    seq(k, i requires 0 <= i < k => stages[i].event)
  }

  lemma DoneMore(stages: seq<Stage>, k: nat)
    requires k < |stages|
    ensures Done(stages, k + 1) == Done(stages, k) + [stages[k].event]
  {
  }

  /** What undoes a run: host, core and configuration, and the envelope last, once arming was entered. */
  function Undo(armed: bool): seq<Event> {
    [HostRolledBack, CoreStopped, ConfigsRemoved, RolledBack] + (if armed then [EnvelopeCleaned] else [])
  }

  /** Host networking and arming are entered, which cannot fail; every other stage succeeds or not. */
  predicate Passes(stages: seq<Stage>, works: nat -> bool, k: nat)
    requires k < |stages|
  {
    stages[k].event.Applying? || stages[k].event.Arming? || works(k)
  }

  /** All stages before `k` pass. */
  ghost predicate PassesUpTo(stages: seq<Stage>, works: nat -> bool, k: nat)
    requires k <= |stages|
  {
    forall i: nat :: i < k ==> Passes(stages, works, i)
  }

  /**
   Stage `k` is the first to fail: exactly the earlier ones were done, and then their undoing went as
   far as its own first failure. Before the transaction began there was nothing to undo; afterwards
   the status says whether all of it was undone.
   */
  ghost predicate StoppedAt(
      stages: seq<Stage>, works: nat -> bool, undoes: nat -> bool, trace: seq<Event>, o: Outcome, k: nat, n: nat)
    requires k < |stages|
  {
    var undo := Undo(Arming in Done(stages, k));
    && PassesUpTo(stages, works, k) && !Passes(stages, works, k)
    && o.Failure? && o.phase == stages[k].phase && trace == Done(stages, k) + undo[..if n <= |undo| then n else 0]
    && if k < 2 then n == 0 && o.status.NotStarted?
       else UndoneTo(undo, undoes, n) && o.status == if n == |undo| then Completed else Failed
  }

  /** Undoing went `n` steps: all of it, or up to the first step that fails. */
  ghost predicate UndoneTo(undo: seq<Event>, undoes: nat -> bool, n: nat) {
    n <= |undo| && (forall i: nat :: i < n ==> undoes(i)) && (n < |undo| ==> !undoes(n))
  }

  ghost predicate Stopped(stages: seq<Stage>, works: nat -> bool, undoes: nat -> bool, trace: seq<Event>, o: Outcome) {
    exists k: nat, n: nat :: k < |stages| && StoppedAt(stages, works, undoes, trace, o, k, n)
  }

  /** Whatever fails, a run ends in one way: the first failing stage and the first failing undo step decide. */
  lemma OneOutcome(
      stages: seq<Stage>, works: nat -> bool, undoes: nat -> bool, t: seq<Event>, o: Outcome, u: seq<Event>, p: Outcome)
    requires Stopped(stages, works, undoes, t, o) && Stopped(stages, works, undoes, u, p)
    ensures t == u && o == p && !PassesUpTo(stages, works, |stages|)
  {
    var k: nat, n: nat :| k < |stages| && StoppedAt(stages, works, undoes, t, o, k, n);
    var l: nat, m: nat :| l < |stages| && StoppedAt(stages, works, undoes, u, p, l, m);
    assert !(k < l) && !(l < k);
  }

  /** Where host networking begins to change. */
  function Applies(addressed: bool): nat {
    if addressed then 8 else 7
  }

  lemma NetworkStages(required: bool, addressed: bool)
    ensures var s, k := Stages(required, addressed), Applies(addressed);
      && |s| == k + (if required then 8 else 4)
      && s[k] == Stage(Applying, NetworkApply) && s[k + 1] == Stage(Applied, NetworkApply)
      && s[k + 2] == Stage(ConnectivityOk, ConnectivityVerify)
      && (required ==> s[k + 3..k + 7] == ENVELOPE_STAGES)
      && s[|s| - 1] == Stage(Committed, Commit)
  {
  }

  lemma LastDone(stages: seq<Stage>, k: nat)
    requires 0 < k <= |stages|
    ensures Last(Done(stages, k)) == stages[k - 1].event
  {
  }

  /** Up to the second connectivity check, and without an envelope up to the end, arming is not entered. */
  lemma NotArmed(required: bool, addressed: bool, k: nat)
    requires k <= Applies(addressed) + 3
    ensures k <= |Stages(required, addressed)| && Arming !in Done(Stages(required, addressed), k)
  {
    var s := Stages(required, addressed);
    NetworkStages(required, addressed);
    assert forall i :: 0 <= i < Applies(addressed) + 3 ==> s[i].event != Arming;
  }

  lemma IsArmed(addressed: bool, k: nat)
    requires Applies(addressed) + 4 <= k <= |Stages(true, addressed)|
    ensures Arming in Done(Stages(true, addressed), k)
  {
    NetworkStages(true, addressed);
    assert Stages(true, addressed)[Applies(addressed) + 3] == ENVELOPE_STAGES[0];
    assert Done(Stages(true, addressed), k)[Applies(addressed) + 3] == Arming;
  }

  class FullTunnelRunner {
    const required: bool           // requirePrivacyEnvelope
    const hooked: bool             // all envelope hooks are present
    const addressed: bool          // the bound plan carries a TUN address
    const works: nat -> bool       // whether stage k succeeds
    const undoes: nat -> bool      // whether step n of a rollback succeeds
    var trace: seq<Event>

    ghost predicate Valid()
      reads this
    {
      Ordered(required, trace)
    }

    /** The first `k` stages passed, and nothing else happened. */
    ghost predicate Reached(k: nat)
      reads this
    {
      && k <= |Stages(required, addressed)| && trace == Done(Stages(required, addressed), k)
      && PassesUpTo(Stages(required, addressed), works, k)
    }

    /** The run went through every stage, or stopped where it had to. */
    ghost predicate EndsWith(o: Outcome)
      reads this
    {
      var stages := Stages(required, addressed);
      if o.Active? then Reached(|stages|) else Stopped(stages, works, undoes, trace, o)
    }

    constructor (required: bool, hooked: bool, addressed: bool, works: nat -> bool, undoes: nat -> bool)
      ensures Valid() && trace == [] && this.required == required && this.hooked == hooked
      ensures this.addressed == addressed && this.works == works && this.undoes == undoes
    {
      this.required, this.hooked, this.addressed, trace := required, hooked, addressed, [];
      this.works, this.undoes := works, undoes;
    }

    /** Records an event in its place. */
    method Enter(e: Event)
      requires Valid() && Follows(required, trace, e)
      modifies this
      ensures Valid() && trace == old(trace) + [e]
    {
      Appended(required, trace, e);
      trace := trace + [e];
    }

    /** Stage `k`: it fails, or it succeeds and is recorded. */
    method Attempt(e: Event, k: nat) returns (ok: bool)
      requires Valid() && Follows(required, trace, e) && Reached(k) && !e.Applying? && !e.Arming?
      requires k < |Stages(required, addressed)| && Stages(required, addressed)[k].event == e
      modifies this
      ensures Valid() && Reached(if ok then k + 1 else k) && ok == Passes(Stages(required, addressed), works, k)
    {
      ok := works(k);
      if ok { Pass(e, k); }
    }

    method Pass(e: Event, ghost k: nat)
      requires Valid() && Follows(required, trace, e) && Reached(k)
      requires k < |Stages(required, addressed)| && Stages(required, addressed)[k].event == e
      requires Passes(Stages(required, addressed), works, k)
      modifies this
      ensures Valid() && Reached(k + 1)
    {
      DoneMore(Stages(required, addressed), k);
      Enter(e);
    }

    /** Step `n` of a rollback. */
    method UndoStep(e: Event, n: nat) returns (ok: bool)
      requires Valid() && Follows(required, trace, e)
      modifies this
      ensures Valid() && ok == undoes(n) && trace == (if ok then old(trace) + [e] else old(trace))
    {
      ok := undoes(n);
      if ok { Enter(e); }
    }

    /** rollbackTunTransactionWithChildStopper: the core and its configuration stay until the host is clean. */
    method Rollback() returns (ok: bool, ghost n: nat)
      requires Valid()
      modifies this
      ensures Valid() && UndoneTo(Undo(false), undoes, n) && trace == old(trace) + Undo(false)[..n] && (ok <==> n == 4)
    {
      n := 0;
      ok := UndoStep(HostRolledBack, 0);
      if !ok { return; }
      n := 1;
      ok := UndoStep(CoreStopped, 1);
      if !ok { return; }
      n := 2;
      ok, n := FinishRollback();
      assert trace == old(trace) + Undo(false)[..n];
    }

    method FinishRollback() returns (ok: bool, ghost n: nat)
      requires Valid() && trace != [] && Last(trace).CoreStopped?
      modifies this
      ensures Valid() && 2 <= n <= 4 && trace == old(trace) + Undo(false)[2..n] && (ok <==> n == 4)
      ensures (forall i: nat :: 2 <= i < n ==> undoes(i)) && (n < 4 ==> !undoes(n))
    {
      n := 2;
      ok := UndoStep(ConfigsRemoved, 2);
      if !ok { return; }
      n := 3;
      ok := UndoStep(RolledBack, 3);
      if ok { n := 4; }
    }

    method Fail(phase: Phase, ghost k: nat) returns (o: Outcome)
      requires Valid() && Reached(k) && 2 <= k < |Stages(required, addressed)|
      requires !Passes(Stages(required, addressed), works, k)
      requires Stages(required, addressed)[k].phase == phase && Arming !in Done(Stages(required, addressed), k)
      modifies this
      ensures Valid() && o.Failure? && EndsWith(o)
    {
      var ok;
      ghost var n;
      ok, n := Rollback();
      o := Failure(phase, if ok then Completed else Failed);
      assert StoppedAt(Stages(required, addressed), works, undoes, trace, o, k, n);
    }

    /** rollbackDataPlaneThenPrivacy: an incomplete rollback leaves the envelope alone. */
    method FailAfterEnvelope(phase: Phase, ghost k: nat) returns (o: Outcome)
      requires Valid() && Reached(k) && 2 <= k < |Stages(required, addressed)|
      requires !Passes(Stages(required, addressed), works, k)
      requires Stages(required, addressed)[k].phase == phase && Arming in Done(Stages(required, addressed), k)
      modifies this
      ensures Valid() && o.Failure? && EndsWith(o)
    {
      var ok;
      ghost var n;
      ok, n := Rollback();
      assert Undo(false)[..n] == Undo(true)[..n];
      if ok {
        ok := UndoStep(EnvelopeCleaned, 4);
        if ok { n := 5; }
      }
      assert Undo(true)[..5] == Undo(false)[..4] + [EnvelopeCleaned];
      o := Failure(phase, if ok then Completed else Failed);
      assert StoppedAt(Stages(required, addressed), works, undoes, trace, o, k, n);
    }

    /**
     run: for every pattern of stage failures. An active tunnel went through every stage in order; a
     failed one through all stages before the one that failed, and then through its undoing.
     */
    method Run() returns (o: Outcome)
      requires Valid() && trace == []
      modifies this
      ensures Valid()
      ensures required && !hooked ==> o == Failure(PrivacyPreflight, NotStarted) && trace == []
      ensures hooked || !required ==> EndsWith(o)
      ensures o.Active? <==>
        (hooked || !required) && PassesUpTo(Stages(required, addressed), works, |Stages(required, addressed)|)
    {
      if required && !hooked { return Failure(PrivacyPreflight, NotStarted); }
      assert Reached(0);
      var ok := Attempt(Preflighted, 0);
      if !ok {
        o := Failure(CorePreflight, NotStarted);
        assert StoppedAt(Stages(required, addressed), works, undoes, trace, o, 0, 0);
        return;
      }
      ok := Attempt(Began, 1);
      if !ok {
        o := Failure(TransactionBegin, NotStarted);
        assert StoppedAt(Stages(required, addressed), works, undoes, trace, o, 1, 0);
        return;
      }
      ok := Attempt(ConfigRecorded, 2);
      if !ok {
        NotArmed(required, addressed, 2);
        o := Fail(CorePreflight, 2);
        return;
      }
      o := RunCore();
      if o.Active? { o := RunNetwork(); }
      if o.Failure? { OneOutcome(Stages(required, addressed), works, undoes, trace, o, trace, o); }
    }

    /** Core start and address identity; `Active` means: go on. */
    method RunCore() returns (o: Outcome)
      requires Valid() && Reached(3)
      modifies this
      ensures Valid()
      ensures if o.Active? then Reached(Applies(addressed)) else EndsWith(o)
    {
      var k := 3;
      var ok := Attempt(CoreStarted, 3);
      if ok {
        k := 4;
        ok := Attempt(CoreRecorded, 4);
      }
      if ok {
        k := 5;
        ok := Attempt(CoreVerified, 5);
      }
      NotArmed(required, addressed, k);
      if !ok {
        o := Fail(CoreStart, k);
        return;
      }
      o := RunAddress();
    }

    method RunAddress() returns (o: Outcome)
      requires Valid() && Reached(6)
      modifies this
      ensures Valid()
      ensures if o.Active? then Reached(Applies(addressed)) else EndsWith(o)
    {
      var k := 6;
      var ok := Attempt(AddressBound, 6);
      if ok && addressed {
        k := 7;
        ok := Attempt(AddressRecorded, 7);
      }
      if ok { return Active; }
      NotArmed(required, addressed, k);
      o := Fail(TunAddressVerify, k);
    }

    /** Host networking, both connectivity checks around the envelope, and the commit. */
    method RunNetwork() returns (o: Outcome)
      requires Valid() && Reached(Applies(addressed))
      modifies this
      ensures Valid()
      ensures EndsWith(o)
    {
      var k := Applies(addressed);
      NetworkStages(required, addressed);
      Pass(Applying, k);
      var ok := Attempt(Applied, k + 1);
      if !ok {
        NotArmed(required, addressed, k + 1);
        o := Fail(NetworkApply, k + 1);
        return;
      }
      ok := Attempt(ConnectivityOk, k + 2);
      if !ok {
        NotArmed(required, addressed, k + 2);
        o := Fail(ConnectivityVerify, k + 2);
        return;
      }
      if required {
        o := RunEnvelope();
        if o.Failure? { return; }
      }
      o := RunCommit();
    }

    method RunEnvelope() returns (o: Outcome)
      requires Valid() && required && Reached(Applies(addressed) + 3)
      modifies this
      ensures Valid()
      ensures if o.Active? then Reached(Applies(addressed) + 7) else EndsWith(o)
    {
      var k := Applies(addressed);
      NetworkStages(required, addressed);
      LastDone(Stages(required, addressed), k + 3);
      Pass(Arming, k + 3);
      LastDone(Stages(required, addressed), k + 4);
      var ok := Attempt(EnvelopeArmed, k + 4);
      if !ok {
        IsArmed(addressed, k + 4);
        o := FailAfterEnvelope(EnvelopeArm, k + 4);
        return;
      }
      o := VerifyEnvelope();
    }

    method VerifyEnvelope() returns (o: Outcome)
      requires Valid() && required && Reached(Applies(addressed) + 5)
      modifies this
      ensures Valid()
      ensures if o.Active? then Reached(Applies(addressed) + 7) else EndsWith(o)
    {
      var k := Applies(addressed);
      NetworkStages(required, addressed);
      LastDone(Stages(required, addressed), k + 5);
      var ok := Attempt(EnvelopeVerified, k + 5);
      if !ok {
        IsArmed(addressed, k + 5);
        o := FailAfterEnvelope(EnvelopeVerify, k + 5);
        return;
      }
      ok := Attempt(ConnectivityOk, k + 6);
      if !ok {
        IsArmed(addressed, k + 6);
        o := FailAfterEnvelope(EnvelopeConnectivity, k + 6);
        return;
      }
      return Active;
    }

    method RunCommit() returns (o: Outcome)
      requires Valid() && Reached(Applies(addressed) + (if required then 7 else 3))
      modifies this
      ensures Valid()
      ensures EndsWith(o)
    {
      var k := Applies(addressed) + (if required then 7 else 3);
      NetworkStages(required, addressed);
      LastDone(Stages(required, addressed), k);
      LastDone(Stages(required, addressed), k - 1);
      var ok := Attempt(Committed, k);
      if ok { return Active; }
      if required {
        IsArmed(addressed, k);
        o := FailAfterEnvelope(Commit, k);
      } else {
        NotArmed(required, addressed, k);
        o := Fail(Commit, k);
      }
    }
  }
}
