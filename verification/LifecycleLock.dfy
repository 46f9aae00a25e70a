/**
 The lifecycle operation lock and the revalidation coordinator as one interleaved state
 machine: any number of request-facing mutators, any number of notifiers, the coordinator
 loop and the shutdown thread. Every step is one critical section, one channel operation or
 one call that another thread can be scheduled around.
 */
module LifecycleLock {
  import opened Wrappers
  import Runs

  type Id = nat

  datatype Trigger = Initial | Resume | SourceResync | Link | Address | Route

  /** How much a trigger asks for; `Merge` never gives a weaker trigger than either argument. */
  function Rank(t: Trigger): nat {
    match t
    case Initial => 3
    case Resume => 2
    case SourceResync => 1
    case _ => 0
  }

  function Merge(current: Option<Trigger>, next: Trigger): (r: Trigger)
    ensures Rank(r) >= Rank(next)
    ensures current.Some? ==> Rank(r) >= Rank(current.value)
    ensures r == next || Some(r) == current
  {
    if current == Some(Initial) || next == Initial then Initial
    else if current == Some(Resume) || next == Resume then Resume
    else if current == Some(SourceResync) || next == SourceResync then SourceResync
    else if current.Some? then current.value
    else next
  }

  /** A request-facing call between its declaration and `finishMutation`. */
  datatype Mutator =
    | Declared                  // counted as pending; interruptRevalidation not yet entered
    | Signalling(signal: bool)  // left the interrupt critical section; signalWake outstanding
    | Waiting                   // blocked on the operation token
    | Holding                   // owns the token, the lifecycle body runs
    | Leaving                   // token returned or never taken; finishMutation outstanding

  datatype Work = Work(trigger: Trigger, revision: nat)

  /** What lifecycleMutationSnapshot returned, plus the counters at that moment. */
  datatype View = View(generation: nat, pending: int, finished: nat)

  /** How far the probe for some work has come. */
  datatype Stage =
    | Draining
    | Blocked(channel: nat)
    | IdleSeen
    | TokenTaken
    | Clear
    | Observing(view: View)
    | Decided(mutation: Option<View>, cut: bool)  // cut: the probe's context ended before it observed
    | Admitted(admitted: View)
    | Rejected

  datatype Loop =
    | Idle
    | Woken
    | Taken(work: Work)
    | Probing(work: Work, stage: Stage)
    | Mutating
    | Releasing
    | Stopped

  datatype Shutdown =
    | Serving
    | EventsCancelled
    | Fenced
    | FenceSignalling(signal: bool)
    | Drain
    | DrainBlocked(channel: nat)
    | Drained
    | FinalHolding
    | FinalDone
    | DrainFailed

  /** Who took the operation token last; only the proofs read it. */
  datatype Owner = Nobody | ByMutator(id: Id) | LoopThread | ShutdownThread

  /** lifecycleOperationLock. */
  datatype Lock = Lock(
    token: bool,
    owner: Owner,
    pending: int,
    generation: nat,
    idle: nat,                // identity of the current mutationIdle channel
    idleClosed: bool,         // whether that channel has been closed
    idleLeaked: bool,         // whether a channel was ever replaced before it was closed
    closed: bool,             // mutationsClosed
    finished: nat             // registrations completed so far
  )

  /** tunRevalidationCoordinator. */
  datatype Queue = Queue(
    wake: bool,
    revision: nat,
    trigger: Option<Trigger>,  // pendingTrigger
    pending: nat,              // pendingRevision
    active: Option<Work>,
    cancelled: bool,           // activeCancel has been called
    notifiers: nat             // Notify calls that published and still owe signalWake
  )

  datatype State = State(lock: Lock, queue: Queue, mutators: map<Id, Mutator>, loop: Loop, shutdown: Shutdown)

  const INIT := State(Lock(true, Nobody, 0, 0, 0, true, false, false, 0), Queue(false, 0, None, 0, None, false, 0),
                      map[], Idle, Serving)

  datatype MutatorMove = Declare | Interrupt | Signal | Acquire | Abandon | ReturnToken | Finish

  /** The coordinator loop until its probe owns the operation token. */
  datatype ApproachMove = Wake | Take | SetActive | AwaitIdle | Unblock | LoopAcquire | Recheck | Stop

  /** The probe itself, up to the disposition it returns. */
  datatype ProbeMove = Snapshot | Observe(mutate: bool) | GiveUp

  /** What follows the disposition, apart from the claim itself. */
  datatype HandoffMove = Skip | ClearActive | AutoFinish | AutoRelease

  datatype ShutdownMove =
    | CancelEvents | Fence | FenceInterrupt | FenceSignal | DrainCheck | DrainUnblock | DrainTimeout
    | FinalAcquire | FinalRelease

  datatype Step =
    | Request(id: Id, move: MutatorMove)
    | Publish(trigger: Trigger)
    | NotifySignal
    | Approach(approach: ApproachMove)
    | Probe(probe: ProbeMove)
    | Claim
    | Handoff(handoff: HandoffMove)
    | Shutdown(shutdownMove: ShutdownMove)

  // ---------------------------------------------------------------- critical sections

  function Grab(k: Lock, owner: Owner): Lock {
    k.(token := false, owner := owner)
  }

  function GiveBack(k: Lock): Lock {
    k.(token := true, owner := Nobody)
  }

  /** Registration shared by beginMutationWithFence and tryAdmitAutomaticMutation. */
  function Register(k: Lock): Lock {
    k.(generation := k.generation + 1,
       idle := if k.pending == 0 then k.idle + 1 else k.idle,
       idleClosed := k.idleClosed && k.pending != 0,
       idleLeaked := k.idleLeaked || (k.pending == 0 && !k.idleClosed),
       pending := k.pending + 1)
  }

  function Unregister(k: Lock): Lock {
    k.(pending := k.pending - 1, idleClosed := k.idleClosed || k.pending == 1, finished := k.finished + 1)
  }

  /** Whether a waiter that picked up idle channel `c` is released. */
  predicate ChannelClosed(k: Lock, c: nat) {
    !k.idleLeaked && (c < k.idle || (c == k.idle && k.idleClosed))
  }

  /** tryAdmitAutomaticMutation's guard. */
  predicate Admissible(k: Lock, expected: nat) {
    !k.closed && k.pending == 0 && k.generation == expected && k.token
  }

  /** requeueActiveLocked. */
  function Requeue(q: Queue): Queue {
    if q.active.None? then q
    else q.(trigger := Some(Merge(q.trigger, q.active.value.trigger)),
            pending := if q.active.value.revision > q.pending then q.active.value.revision else q.pending)
  }

  /** InterruptForMutation up to its signal: requeue, then cancel the probe. */
  function Interrupted(q: Queue): Queue {
    Requeue(q).(cancelled := q.cancelled || q.active.Some?)
  }

  /** It signals when it cancelled a probe or left work pending. */
  predicate InterruptSignals(q: Queue) {
    q.active.Some? || q.trigger.Some?
  }

  /** Notify's critical section: a new revision, merged into whatever is pending. */
  function Published(q: Queue, t: Trigger): Queue {
    q.(revision := q.revision + 1, pending := q.revision + 1,
       trigger := Some(Merge(q.trigger, t)), notifiers := q.notifiers + 1)
  }

  // ---------------------------------------------------------------- the threads

  function MutatorStep(s: State, i: Id, move: MutatorMove): Option<State> {
    if move.Declare? then
      if i in s.mutators || s.lock.closed then None
      else Some(s.(lock := Register(s.lock), mutators := s.mutators[i := Declared]))
    else if i !in s.mutators then None
    else
      match (move, s.mutators[i])
      case (Interrupt, Declared) =>
        Some(s.(queue := Interrupted(s.queue), mutators := s.mutators[i := Signalling(InterruptSignals(s.queue))]))
      case (Signal, Signalling(signal)) =>
        Some(s.(queue := s.queue.(wake := s.queue.wake || signal), mutators := s.mutators[i := Waiting]))
      case (Acquire, Waiting) =>
        if !s.lock.token then None
        else Some(s.(lock := Grab(s.lock, ByMutator(i)), mutators := s.mutators[i := Holding]))
      case (Abandon, Waiting) =>
        Some(s.(mutators := s.mutators[i := Leaving]))
      case (ReturnToken, Holding) =>
        Some(s.(lock := GiveBack(s.lock), mutators := s.mutators[i := Leaving]))
      case (Finish, Leaving) =>
        Some(s.(lock := Unregister(s.lock), mutators := s.mutators - {i}))
      case _ => None
  }

  function At(s: State, stage: Stage): State
    requires s.loop.Probing?
  {
    s.(loop := Probing(s.loop.work, stage))
  }

  function ApproachStep(s: State, move: ApproachMove): Option<State> {
    match move
    case Wake =>
      if !s.loop.Idle? || !s.queue.wake then None
      else Some(s.(queue := s.queue.(wake := false), loop := Woken))
    case Take =>
      if !s.loop.Woken? then None
      else Some(s.(queue := s.queue.(trigger := None, pending := 0),
                   loop := if s.queue.trigger.None? then Idle
                           else Taken(Work(s.queue.trigger.value, s.queue.pending))))
    case SetActive =>
      if !s.loop.Taken? then None
      else Some(s.(queue := s.queue.(active := Some(s.loop.work), cancelled := false),
                   loop := Probing(s.loop.work, Draining)))
    case AwaitIdle =>
      if !s.loop.Probing? || !s.loop.stage.Draining? then None
      else Some(At(s, if s.lock.pending == 0 then IdleSeen else Blocked(s.lock.idle)))
    case Unblock =>
      if !s.loop.Probing? || !s.loop.stage.Blocked? || !ChannelClosed(s.lock, s.loop.stage.channel) then None
      else Some(At(s, Draining))
    case LoopAcquire =>
      if !s.loop.Probing? || !s.loop.stage.IdleSeen? || !s.lock.token then None
      else Some(At(s, TokenTaken).(lock := Grab(s.lock, LoopThread)))
    case Recheck =>
      if !s.loop.Probing? || !s.loop.stage.TokenTaken? then None
      else if s.lock.pending > 0 then Some(At(s, Draining).(lock := GiveBack(s.lock)))
      else Some(At(s, Clear))
    case Stop =>
      if !(s.loop.Idle? || s.loop.Woken?) || s.shutdown.Serving? then None else Some(s.(loop := Stopped))
  }

  /** The probe's context has ended: an interrupt cancelled it, or shutdown cancelled all of them. */
  predicate ContextEnded(s: State) {
    s.queue.cancelled || !s.shutdown.Serving?
  }

  function ProbeStep(s: State, move: ProbeMove): Option<State> {
    if !s.loop.Probing? then None
    else
      match move
      case Snapshot =>
        if !s.loop.stage.Clear? then None
        else Some(At(s, Observing(View(s.lock.generation, s.lock.pending, s.lock.finished))))
      case Observe(mutate) =>
        if !s.loop.stage.Observing? then None
        else Some(At(s, Decided(if mutate then Some(s.loop.stage.view) else None, false)).(lock := GiveBack(s.lock)))
      case GiveUp =>
        if !ContextEnded(s) then None
        else if s.loop.stage.Blocked? || s.loop.stage.IdleSeen? then Some(At(s, Decided(None, true)))
        else if s.loop.stage.Clear? then Some(At(s, Decided(None, true)).(lock := GiveBack(s.lock)))
        else None
  }

  /** claimAndAdmitAutomaticDisposition: publication check, admission or requeue under one mutex. */
  function ClaimStep(s: State): Option<State> {
    if !s.loop.Probing? || !s.loop.stage.Decided? || s.loop.stage.mutation.None? then None
    else if s.queue.revision != s.loop.work.revision then Some(At(s, Rejected))
    else if Admissible(s.lock, s.loop.stage.mutation.value.generation) then
      Some(At(s, Admitted(s.loop.stage.mutation.value)).(lock := Grab(Register(s.lock), LoopThread)))
    else Some(At(s, Rejected).(queue := Requeue(s.queue)))
  }

  function HandoffStep(s: State, move: HandoffMove): Option<State> {
    match move
    case Skip =>
      if !s.loop.Probing? || !s.loop.stage.Decided? || (s.loop.stage.mutation.Some? && s.shutdown.Serving?) then None
      else Some(s.(queue := s.queue.(active := None), loop := Idle))
    case ClearActive =>
      if !s.loop.Probing? then None
      else if s.loop.stage.Admitted? then Some(s.(queue := s.queue.(active := None), loop := Mutating))
      else if s.loop.stage.Rejected? then Some(s.(queue := s.queue.(active := None), loop := Idle))
      else None
    case AutoFinish =>
      if !s.loop.Mutating? then None else Some(s.(lock := Unregister(s.lock), loop := Releasing))
    case AutoRelease =>
      if !s.loop.Releasing? then None else Some(s.(lock := GiveBack(s.lock), loop := Idle))
  }

  function ShutdownStep(s: State, move: ShutdownMove): Option<State> {
    match move
    case CancelEvents =>
      if !s.shutdown.Serving? then None else Some(s.(shutdown := EventsCancelled))
    case Fence =>
      if !s.shutdown.EventsCancelled? then None else Some(s.(lock := s.lock.(closed := true), shutdown := Fenced))
    case FenceInterrupt =>
      if !s.shutdown.Fenced? then None
      else Some(s.(queue := Interrupted(s.queue), shutdown := FenceSignalling(InterruptSignals(s.queue))))
    case FenceSignal =>
      if !s.shutdown.FenceSignalling? then None
      else Some(s.(queue := s.queue.(wake := s.queue.wake || s.shutdown.signal), shutdown := Drain))
    case DrainCheck =>
      if !s.shutdown.Drain? then None
      else Some(s.(shutdown := if s.lock.pending == 0 then Drained else DrainBlocked(s.lock.idle)))
    case DrainUnblock =>
      if !s.shutdown.DrainBlocked? || !ChannelClosed(s.lock, s.shutdown.channel) then None
      else Some(s.(shutdown := Drain))
    case DrainTimeout =>
      if !s.shutdown.DrainBlocked? && !s.shutdown.Drained? then None else Some(s.(shutdown := DrainFailed))
    case FinalAcquire =>
      if !s.shutdown.Drained? || !s.lock.token then None
      else Some(s.(lock := Grab(s.lock, ShutdownThread), shutdown := FinalHolding))
    case FinalRelease =>
      if !s.shutdown.FinalHolding? then None
      else Some(s.(lock := GiveBack(s.lock), shutdown := FinalDone))
  }

  function Next(s: State, step: Step): Option<State> {
    match step
    case Request(i, move) => MutatorStep(s, i, move)
    case Publish(t) => Some(s.(queue := Published(s.queue, t)))
    case NotifySignal =>
      if s.queue.notifiers == 0 then None
      else Some(s.(queue := s.queue.(notifiers := s.queue.notifiers - 1, wake := true)))
    case Approach(move) => ApproachStep(s, move)
    case Probe(move) => ProbeStep(s, move)
    case Claim => ClaimStep(s)
    case Handoff(move) => HandoffStep(s, move)
    case Shutdown(move) => ShutdownStep(s, move)
  }

  /** A whole schedule from the daemon's start. */
  ghost predicate IsSchedule(run: seq<State>, steps: seq<Step>) {
    Runs.IsRun(Next, run, steps) && run[0] == INIT
  }

  // ---------------------------------------------------------------- invariants

  predicate StageHolds(g: Stage) {
    g.TokenTaken? || g.Clear? || g.Observing? || g.Admitted?
  }

  predicate LoopHolds(l: Loop) {
    (l.Probing? && StageHolds(l.stage)) || l.Mutating? || l.Releasing?
  }

  predicate AutoRegistered(l: Loop) {
    (l.Probing? && l.stage.Admitted?) || l.Mutating?
  }

  /** Exactly one thread owns the operation token, or it lies in the channel. */
  ghost predicate TokenInv(s: State) {
    && (s.lock.token <==> s.lock.owner == Nobody)
    && (LoopHolds(s.loop) <==> s.lock.owner == LoopThread)
    && (s.shutdown.FinalHolding? <==> s.lock.owner == ShutdownThread)
    && (s.lock.owner.ByMutator? ==> s.lock.owner.id in s.mutators && s.mutators[s.lock.owner.id].Holding?)
    && (forall i :: i in s.mutators && s.mutators[i].Holding? ==> s.lock.owner == ByMutator(i))
  }

  /** The pending counter counts registered threads; the idle channels follow it. */
  ghost predicate PendingInv(s: State) {
    && s.lock.pending == |s.mutators| + (if AutoRegistered(s.loop) then 1 else 0)
    && (s.lock.idleClosed <==> s.lock.pending == 0)
    && !s.lock.idleLeaked
    && (s.loop.Probing? && s.loop.stage.Blocked? ==> s.loop.stage.channel <= s.lock.idle)
    && (s.shutdown.DrainBlocked? ==> s.shutdown.channel <= s.lock.idle)
  }

  ghost predicate FenceInv(s: State) {
    && (s.lock.closed <==> !s.shutdown.Serving? && !s.shutdown.EventsCancelled?)
    && (s.shutdown.Drained? || s.shutdown.FinalHolding? || s.shutdown.FinalDone? ==> s.lock.pending == 0)
    && (s.loop.Stopped? ==> !s.shutdown.Serving?)
  }

  /** The work the loop registered as active, if any. */
  function InHand(l: Loop): Option<Work> {
    if l.Probing? then Some(l.work) else None
  }

  /** Pending work asks for at least as much as `w`. */
  predicate Covers(q: Queue, w: Work) {
    q.trigger.Some? && Rank(w.trigger) <= Rank(q.trigger.value)
  }

  /** Work not yet finished is the newest, or superseded by pending work. */
  predicate Newest(q: Queue, w: Work) {
    w.revision <= q.revision && (w.revision < q.revision ==> q.trigger.Some?)
  }

  /** Pending work carries the newest revision; the work of a cancelled or rejected probe is pending again. */
  ghost predicate RevisionInv(q: Queue, l: Loop) {
    && (q.trigger.Some? ==> q.pending == q.revision)
    && (q.trigger.None? ==> q.pending == 0)
    && q.active == InHand(l)
    && (l.Taken? || l.Probing? ==> Newest(q, l.work))
    && (l.Probing? && q.cancelled ==> Covers(q, l.work))
    && (l.Probing? && l.stage.Rejected? ==> q.trigger.Some?)
  }

  /** A mutator that has not yet delivered the wake its declaration owes. */
  predicate Owes(m: Mutator) {
    m.Declared? || m == Signalling(true)
  }

  ghost predicate WakeOwed(s: State) {
    s.queue.wake || s.queue.notifiers > 0 || exists i :: i in s.mutators && Owes(s.mutators[i])
  }

  predicate HasView(l: Loop) {
    l.Probing? && (l.stage.Observing? || (l.stage.Decided? && l.stage.mutation.Some?))
  }

  function ViewOf(l: Loop): View
    requires HasView(l)
  {
    if l.stage.Observing? then l.stage.view else l.stage.mutation.value
  }

  /** The interval in which the loop relies on having seen no pending mutation. */
  predicate AfterRecheck(l: Loop) {
    l.Probing? && (l.stage.Clear? || HasView(l))
  }

  /** Since the snapshot: every finished or still pending registration was counted then or declared later. */
  predicate ViewInv(k: Lock, v: View) {
    && v.generation <= k.generation
    && k.finished + k.pending == v.finished + v.pending + (k.generation - v.generation)
  }

  /** Something may have happened that the loop will be told about by a wake. */
  predicate Overtaken(s: State) {
    || (s.queue.trigger.Some? && !s.loop.Woken?)
    || (AfterRecheck(s.loop) && s.mutators != map[])
    || (HasView(s.loop) && s.lock.generation > ViewOf(s.loop).generation)
  }

  ghost predicate WakeInv(s: State) {
    && (s.shutdown.Serving? && Overtaken(s) ==> WakeOwed(s))
    && (HasView(s.loop) ==> ViewInv(s.lock, ViewOf(s.loop)))
    && (s.shutdown.Serving? && s.loop.Probing? && s.loop.stage.Decided? && s.loop.stage.cut ==> s.queue.cancelled)
  }

  ghost predicate LockInv(s: State) {
    TokenInv(s) && PendingInv(s) && FenceInv(s)
  }

  ghost predicate WorkInv(s: State) {
    RevisionInv(s.queue, s.loop) && WakeInv(s)
  }

  ghost predicate Inv(s: State) {
    LockInv(s) && WorkInv(s)
  }

  lemma DropSize(m: map<Id, Mutator>, i: Id)
    requires i in m
    ensures |m - {i}| == |m| - 1
  {
    var d := m - {i};
    assert d.Keys == m.Keys - {i};
    assert |d| == |d.Keys| && |m| == |m.Keys|;
  }

  lemma UpdateSize(m: map<Id, Mutator>, i: Id, v: Mutator)
    ensures |m[i := v]| == |m| + (if i in m then 0 else 1)
  {
    var u := m[i := v];
    assert u.Keys == m.Keys + {i};
    assert |u| == |u.Keys| && |m| == |m.Keys|;
  }

  /** Replacing one mutator's position keeps every other thread's outstanding wake. */
  lemma OwedKept(s: State, t: State, i: Id)
    requires WakeOwed(s)
    requires i in s.mutators ==> !Owes(s.mutators[i]) || t.queue.wake || (i in t.mutators && Owes(t.mutators[i]))
    requires s.queue.wake ==> t.queue.wake
    requires t.queue.notifiers >= s.queue.notifiers
    requires forall j :: j in s.mutators && j != i ==> j in t.mutators && t.mutators[j] == s.mutators[j]
    ensures WakeOwed(t)
  {
    if !s.queue.wake && s.queue.notifiers == 0 {
      var j :| j in s.mutators && Owes(s.mutators[j]);
      if j == i && !t.queue.wake { assert Owes(t.mutators[i]); }
    }
  }

  lemma OwedUnchanged(s: State, t: State)
    requires WakeOwed(s) && s.queue.wake == t.queue.wake && s.queue.notifiers == t.queue.notifiers
    requires s.mutators == t.mutators
    ensures WakeOwed(t)
  {
  }

  // ---------------------------------------------------------------- token and counter

  lemma MutatorKeepsLock(s: State, i: Id, move: MutatorMove)
    requires LockInv(s) && MutatorStep(s, i, move).Some?
    ensures LockInv(MutatorStep(s, i, move).value)
  {
    var t := MutatorStep(s, i, move).value;
    MutatorKeepsToken(s, i, move);
    if move.Finish? {
      DropSize(s.mutators, i);
    } else {
      UpdateSize(s.mutators, i, t.mutators[i]);
    }
  }

  lemma MutatorKeepsToken(s: State, i: Id, move: MutatorMove)
    requires TokenInv(s) && MutatorStep(s, i, move).Some?
    ensures TokenInv(MutatorStep(s, i, move).value)
  {
  }

  lemma ApproachKeepsLock(s: State, move: ApproachMove)
    requires LockInv(s) && ApproachStep(s, move).Some?
    ensures LockInv(ApproachStep(s, move).value)
  {
  }

  lemma ProbeKeepsLock(s: State, move: ProbeMove)
    requires LockInv(s) && ProbeStep(s, move).Some?
    ensures LockInv(ProbeStep(s, move).value)
  {
  }

  lemma ClaimKeepsLock(s: State)
    requires LockInv(s) && ClaimStep(s).Some?
    ensures LockInv(ClaimStep(s).value)
  {
  }

  lemma HandoffKeepsLock(s: State, move: HandoffMove)
    requires LockInv(s) && HandoffStep(s, move).Some?
    ensures LockInv(HandoffStep(s, move).value)
  {
  }

  lemma ShutdownKeepsLock(s: State, move: ShutdownMove)
    requires LockInv(s) && ShutdownStep(s, move).Some?
    ensures LockInv(ShutdownStep(s, move).value)
  {
  }

  // ---------------------------------------------------------------- work and wakes

  lemma InterruptKeepsRevision(q: Queue, l: Loop)
    requires RevisionInv(q, l)
    ensures RevisionInv(Requeue(q), l) && RevisionInv(Interrupted(q), l)
  {
  }

  lemma MutatorKeepsRevision(s: State, i: Id, move: MutatorMove)
    requires RevisionInv(s.queue, s.loop) && MutatorStep(s, i, move).Some?
    ensures RevisionInv(MutatorStep(s, i, move).value.queue, s.loop) && MutatorStep(s, i, move).value.loop == s.loop
  {
    InterruptKeepsRevision(s.queue, s.loop);
  }

  lemma DeclareKeepsWake(s: State, i: Id)
    requires WakeInv(s) && MutatorStep(s, i, Declare).Some?
    ensures WakeInv(MutatorStep(s, i, Declare).value)
  {
    var t := MutatorStep(s, i, Declare).value;
    assert i in t.mutators && Owes(t.mutators[i]);
  }

  lemma InterruptKeepsWake(s: State, i: Id)
    requires WakeInv(s) && RevisionInv(s.queue, s.loop) && MutatorStep(s, i, Interrupt).Some?
    ensures WakeInv(MutatorStep(s, i, Interrupt).value)
  {
    var t := MutatorStep(s, i, Interrupt).value;
    if InterruptSignals(s.queue) { assert i in t.mutators && Owes(t.mutators[i]); }
  }

  lemma MutatorKeepsWake(s: State, i: Id, move: MutatorMove)
    requires Inv(s) && MutatorStep(s, i, move).Some?
    ensures WakeInv(MutatorStep(s, i, move).value)
  {
    if move.Declare? {
      DeclareKeepsWake(s, i);
    } else if move.Interrupt? {
      InterruptKeepsWake(s, i);
    } else {
      var t := MutatorStep(s, i, move).value;
      assert i in s.mutators && s.mutators != map[];
      if WakeOwed(s) { OwedKept(s, t, i); }
    }
  }

  lemma ApproachKeepsRevision(s: State, move: ApproachMove)
    requires RevisionInv(s.queue, s.loop) && ApproachStep(s, move).Some?
    ensures RevisionInv(ApproachStep(s, move).value.queue, ApproachStep(s, move).value.loop)
  {
  }

  lemma ApproachKeepsWake(s: State, move: ApproachMove)
    requires Inv(s) && ApproachStep(s, move).Some?
    ensures WakeInv(ApproachStep(s, move).value)
  {
    if WakeOwed(s) && !move.Wake? { OwedUnchanged(s, ApproachStep(s, move).value); }
  }

  lemma ProbeKeepsWork(s: State, move: ProbeMove)
    requires Inv(s) && ProbeStep(s, move).Some?
    ensures WorkInv(ProbeStep(s, move).value)
  {
    if WakeOwed(s) { OwedUnchanged(s, ProbeStep(s, move).value); }
  }

  /**
   The one requeue that does not signal. If shutdown has not begun, admission can only have lost
   to a mutation declared after the recheck, and that mutation delivered or still owes a wake.
   */
  lemma LostClaimIsOwed(s: State)
    requires Inv(s) && HasView(s.loop) && s.loop.stage.Decided? && s.shutdown.Serving?
    requires !Admissible(s.lock, ViewOf(s.loop).generation)
    ensures WakeOwed(s)
  {
    if s.lock.pending == 0 && s.lock.generation == ViewOf(s.loop).generation {
      assert false;
    }
  }

  lemma ClaimKeepsRevision(s: State)
    requires RevisionInv(s.queue, s.loop) && ClaimStep(s).Some?
    ensures RevisionInv(ClaimStep(s).value.queue, ClaimStep(s).value.loop)
  {
    InterruptKeepsRevision(s.queue, s.loop);
  }

  lemma ClaimKeepsWake(s: State)
    requires Inv(s) && ClaimStep(s).Some?
    ensures WakeInv(ClaimStep(s).value)
  {
    if s.shutdown.Serving? && !Admissible(s.lock, ViewOf(s.loop).generation) { LostClaimIsOwed(s); }
    if WakeOwed(s) { OwedUnchanged(s, ClaimStep(s).value); }
  }

  lemma HandoffKeepsWork(s: State, move: HandoffMove)
    requires Inv(s) && HandoffStep(s, move).Some?
    ensures WorkInv(HandoffStep(s, move).value)
  {
    if WakeOwed(s) { OwedUnchanged(s, HandoffStep(s, move).value); }
  }

  lemma ShutdownKeepsWork(s: State, move: ShutdownMove)
    requires WorkInv(s) && ShutdownStep(s, move).Some?
    ensures WorkInv(ShutdownStep(s, move).value)
  {
    InterruptKeepsRevision(s.queue, s.loop);
  }

  lemma PublishKeepsInv(s: State, t: Trigger)
    requires Inv(s)
    ensures Inv(s.(queue := Published(s.queue, t)))
  {
    assert WakeOwed(s.(queue := Published(s.queue, t)));
  }

  lemma NotifyKeepsInv(s: State)
    requires Inv(s) && Next(s, NotifySignal).Some?
    ensures Inv(Next(s, NotifySignal).value)
  {
    assert WakeOwed(Next(s, NotifySignal).value);
  }

  lemma StepKeepsLock(s: State, step: Step)
    requires LockInv(s) && Next(s, step).Some?
    ensures LockInv(Next(s, step).value)
  {
    match step
    case Request(i, move) => MutatorKeepsLock(s, i, move);
    case Publish(_) =>
    case NotifySignal =>
    case Approach(move) => ApproachKeepsLock(s, move);
    case Probe(move) => ProbeKeepsLock(s, move);
    case Claim => ClaimKeepsLock(s);
    case Handoff(move) => HandoffKeepsLock(s, move);
    case Shutdown(move) => ShutdownKeepsLock(s, move);
  }

  lemma StepKeepsWork(s: State, step: Step)
    requires Inv(s) && Next(s, step).Some?
    ensures WorkInv(Next(s, step).value)
  {
    match step
    case Request(i, move) =>
      MutatorKeepsRevision(s, i, move);
      MutatorKeepsWake(s, i, move);
    case Publish(t) => PublishKeepsInv(s, t);
    case NotifySignal => NotifyKeepsInv(s);
    case Approach(move) =>
      ApproachKeepsRevision(s, move);
      ApproachKeepsWake(s, move);
    case Probe(move) => ProbeKeepsWork(s, move);
    case Claim =>
      ClaimKeepsRevision(s);
      ClaimKeepsWake(s);
    case Handoff(move) => HandoffKeepsWork(s, move);
    case Shutdown(move) => ShutdownKeepsWork(s, move);
  }

  lemma StepKeepsInv(s: State, step: Step)
    requires Inv(s) && Next(s, step).Some?
    ensures Inv(Next(s, step).value)
  {
    StepKeepsLock(s, step);
    StepKeepsWork(s, step);
  }

  /** Every state of every schedule satisfies the invariant. */
  lemma ReachableInv(run: seq<State>, steps: seq<Step>, k: nat)
    requires IsSchedule(run, steps) && k < |run|
    ensures Inv(run[k])
  {
    forall s, step | Inv(s) && Next(s, step).Some? ensures Inv(Next(s, step).value) {
      StepKeepsInv(s, step);
    }
    Runs.Preserved(Next, s => Inv(s), step => true, run, steps, 0, k);
  }

  // ---------------------------------------------------------------- results

  ghost predicate MutatorHolds(s: State) {
    exists i :: i in s.mutators && s.mutators[i].Holding?
  }

  /**
   Token in channel plus holders is one: the token is free exactly when no thread holds it, no two
   threads hold it together, and the current idle channel is closed exactly when nothing is pending.
   */
  lemma TokenExclusive(run: seq<State>, steps: seq<Step>, k: nat)
    requires IsSchedule(run, steps) && k < |run|
    ensures var s := run[k];
      && (s.lock.token <==> !MutatorHolds(s) && !LoopHolds(s.loop) && !s.shutdown.FinalHolding?)
      && !(MutatorHolds(s) && LoopHolds(s.loop))
      && !(MutatorHolds(s) && s.shutdown.FinalHolding?)
      && !(LoopHolds(s.loop) && s.shutdown.FinalHolding?)
      && (forall i, j :: i in s.mutators && s.mutators[i].Holding? && j in s.mutators && s.mutators[j].Holding? ==>
            i == j)
      && (s.lock.pending == 0 <==> s.mutators == map[] && !AutoRegistered(s.loop))
      && (s.lock.idleClosed <==> s.lock.pending == 0)
  {
    ReachableInv(run, steps, k);
    var s := run[k];
    if s.lock.owner.ByMutator? { assert s.lock.owner.id in s.mutators && s.mutators[s.lock.owner.id].Holding?; }
  }

  /** A thread blocked in waitMutationIdle is never left on a channel nobody will close. */
  lemma IdleWaitersWake(run: seq<State>, steps: seq<Step>, k: nat)
    requires IsSchedule(run, steps) && k < |run| && run[k].lock.pending == 0
    ensures run[k].loop.Probing? && run[k].loop.stage.Blocked? ==> ApproachStep(run[k], Unblock).Some?
    ensures run[k].shutdown.DrainBlocked? ==> ShutdownStep(run[k], DrainUnblock).Some?
  {
    ReachableInv(run, steps, k);
  }

  /** No revalidation work is lost, and pending work always carries the newest revision. */
  lemma NoLostWork(run: seq<State>, steps: seq<Step>, k: nat)
    requires IsSchedule(run, steps) && k < |run|
    ensures run[k].shutdown.Serving? && run[k].loop.Idle? && run[k].queue.trigger.Some? ==> WakeOwed(run[k])
    ensures run[k].queue.trigger.Some? ==> run[k].queue.pending == run[k].queue.revision
  {
    ReachableInv(run, steps, k);
  }

  /** Why the loop may let go of the work it took. */
  predicate Concluded(s: State) {
    s.loop.Probing? && (s.loop.stage.Admitted? || (s.loop.stage.Decided? && !s.loop.stage.cut))
  }

  /**
   Work leaves the loop's hands, before shutdown, only because a mutation was admitted for it, a
   completed observation asked for none, or it is pending again under the newest revision with a
   wake on the way. A probe cut short always is the last case, and its trigger is not weakened.
   */
  lemma WorkConcludedOrPending(run: seq<State>, steps: seq<Step>, k: nat)
    requires IsSchedule(run, steps) && k < |steps| && run[k].shutdown.Serving?
    requires run[k].loop.Probing? && !run[k + 1].loop.Probing?
    ensures Concluded(run[k]) || (run[k + 1].queue.trigger.Some? && WakeOwed(run[k + 1])
                                  && run[k + 1].queue.pending == run[k + 1].queue.revision)
    ensures run[k].loop.stage.Decided? && run[k].loop.stage.cut ==> Covers(run[k + 1].queue, run[k].loop.work)
  {
    ReachableInv(run, steps, k);
    ReachableInv(run, steps, k + 1);
    assert Next(run[k], steps[k]) == Some(run[k + 1]);
    LettingGo(run[k], steps[k]);
  }

  lemma LettingGo(s: State, step: Step)
    requires Inv(s) && Next(s, step).Some? && s.loop.Probing? && !Next(s, step).value.loop.Probing?
    ensures step.Handoff? && (step.handoff.Skip? || step.handoff.ClearActive?)
    ensures Next(s, step).value.queue == s.queue.(active := None)
    ensures Next(s, step).value.shutdown == s.shutdown && !Next(s, step).value.loop.Woken?
    ensures s.shutdown.Serving? && s.loop.stage.Rejected? ==> s.queue.trigger.Some?
  {
  }

  // ---------------------------------------------------------------- freshness of an admitted mutation

  predicate AdmittedAt(s: State) {
    s.loop.Probing? && s.loop.stage.Admitted?
  }

  predicate ClearAt(s: State) {
    s.loop.Probing? && s.loop.stage.Clear?
  }

  /** Counters never go back, and a declaration moves the generation. */
  ghost predicate CountersMove(s: State, t: State, declares: bool) {
    && s.lock.generation <= t.lock.generation && s.queue.revision <= t.queue.revision
    && s.lock.finished <= t.lock.finished
    && (declares ==> s.lock.generation < t.lock.generation)
  }

  /** A view is kept or dropped, never replaced. */
  ghost predicate ViewMoves(s: State, t: State) {
    HasView(t.loop) ==> HasView(s.loop) && ViewOf(t.loop) == ViewOf(s.loop) && InHand(t.loop) == InHand(s.loop)
  }

  lemma MutatorMoves(s: State, i: Id, move: MutatorMove)
    requires MutatorStep(s, i, move).Some?
    ensures CountersMove(s, MutatorStep(s, i, move).value, move.Declare?)
    ensures ViewMoves(s, MutatorStep(s, i, move).value)
  {
  }

  lemma ApproachMoves(s: State, move: ApproachMove)
    requires ApproachStep(s, move).Some?
    ensures CountersMove(s, ApproachStep(s, move).value, false)
    ensures ViewMoves(s, ApproachStep(s, move).value)
  {
  }

  lemma ProbeMoves(s: State, move: ProbeMove)
    requires ProbeStep(s, move).Some?
    ensures CountersMove(s, ProbeStep(s, move).value, false)
    ensures move.Snapshot? || ViewMoves(s, ProbeStep(s, move).value)
  {
  }

  lemma ClaimMoves(s: State)
    requires ClaimStep(s).Some?
    ensures CountersMove(s, ClaimStep(s).value, false)
    ensures ViewMoves(s, ClaimStep(s).value)
  {
  }

  lemma HandoffMoves(s: State, move: HandoffMove)
    requires HandoffStep(s, move).Some?
    ensures CountersMove(s, HandoffStep(s, move).value, false)
    ensures ViewMoves(s, HandoffStep(s, move).value)
  {
  }

  lemma ShutdownMoves(s: State, move: ShutdownMove)
    requires ShutdownStep(s, move).Some?
    ensures CountersMove(s, ShutdownStep(s, move).value, false)
    ensures ViewMoves(s, ShutdownStep(s, move).value)
  {
  }

  lemma StepMoves(s: State, step: Step)
    requires Next(s, step).Some?
    ensures CountersMove(s, Next(s, step).value, step.Request? && step.move.Declare?)
    ensures step.Publish? ==> s.queue.revision < Next(s, step).value.queue.revision
    ensures step == Probe(Snapshot) || ViewMoves(s, Next(s, step).value)
  {
    match step
    case Request(i, move) => MutatorMoves(s, i, move);
    case Publish(_) =>
    case NotifySignal =>
    case Approach(move) => ApproachMoves(s, move);
    case Probe(move) => ProbeMoves(s, move);
    case Claim => ClaimMoves(s);
    case Handoff(move) => HandoffMoves(s, move);
    case Shutdown(move) => ShutdownMoves(s, move);
  }

  /** A view held at `n` is the one taken by the last Snapshot, at `k`. */
  lemma ViewFromSnapshot(run: seq<State>, steps: seq<Step>, k: nat, n: nat)
    requires IsSchedule(run, steps) && k < n < |run|
    requires steps[k] == Probe(Snapshot) && HasView(run[n].loop)
    requires forall m :: k < m < n ==> steps[m] != Probe(Snapshot)
    ensures ViewOf(run[n].loop) == View(run[k].lock.generation, run[k].lock.pending, run[k].lock.finished)
    ensures ClearAt(run[k]) && InHand(run[n].loop) == Some(run[k].loop.work)
  {
    assert Next(run[k], steps[k]) == Some(run[k + 1]);
    var w, v := run[k].loop.work, View(run[k].lock.generation, run[k].lock.pending, run[k].lock.finished);
    var p := (s: State) => HasView(s.loop) ==> ViewOf(s.loop) == v && InHand(s.loop) == Some(w);
    forall s, step | p(s) && step != Probe(Snapshot) && Next(s, step).Some? ensures p(Next(s, step).value) {
      StepMoves(s, step);
    }
    Runs.Preserved(Next, p, step => step != Probe(Snapshot), run, steps, k + 1, n);
  }

  /** Counters never go back along a run. */
  lemma CountersGrow(run: seq<State>, steps: seq<Step>, k: nat, n: nat)
    requires IsSchedule(run, steps) && k <= n < |run|
    ensures run[k].lock.generation <= run[n].lock.generation && run[k].queue.revision <= run[n].queue.revision
  {
    var g, r := run[k].lock.generation, run[k].queue.revision;
    var p := (s: State) => g <= s.lock.generation && r <= s.queue.revision;
    forall s, step | p(s) && Next(s, step).Some? ensures p(Next(s, step).value) {
      StepMoves(s, step);
    }
    Runs.Preserved(Next, p, step => true, run, steps, k, n);
  }

  /** No mutation was declared, and nothing was published, while both counters stood still. */
  lemma QuietStretch(run: seq<State>, steps: seq<Step>, k: nat, m: nat, n: nat)
    requires IsSchedule(run, steps) && k <= m < n < |run|
    ensures steps[m].Request? && steps[m].move.Declare? ==> run[k].lock.generation < run[n].lock.generation
    ensures steps[m].Publish? ==> run[k].queue.revision < run[n].queue.revision
  {
    assert Next(run[m], steps[m]) == Some(run[m + 1]);
    StepMoves(run[m], steps[m]);
    CountersGrow(run, steps, k, m);
    CountersGrow(run, steps, m + 1, n);
  }

  /**
   In every interleaving, an admitted automatic mutation is fresh with respect to declarations and
   publications: between its snapshot and its admission nobody declared a mutation, and no newer
   trigger was published since the work's own revision. The second clause counts exactly how many
   registrations completed in that interval: those the snapshot itself reported as pending.
   */
  lemma AdmissionFresh(run: seq<State>, steps: seq<Step>, k: nat, n: nat)
    requires IsSchedule(run, steps) && k < n < |steps|
    requires steps[k] == Probe(Snapshot) && steps[n] == Claim && AdmittedAt(run[n + 1])
    requires forall m :: k < m < n ==> steps[m] != Probe(Snapshot)
    ensures forall m :: k <= m < n ==> !(steps[m].Request? && steps[m].move.Declare?)
    ensures ClearAt(run[k]) && run[n].queue.revision == run[k].loop.work.revision
    ensures run[n].lock.finished - run[k].lock.finished == run[k].lock.pending
  {
    assert Next(run[n], steps[n]) == Some(run[n + 1]);
    ViewFromSnapshot(run, steps, k, n);
    ReachableInv(run, steps, n);
    forall m | k <= m < n ensures !(steps[m].Request? && steps[m].move.Declare?) {
      QuietStretch(run, steps, k, m, n);
    }
  }

  /** Between snapshot and claim the loop never leaves its probe, so it finishes nothing itself. */
  lemma ViewThroughout(run: seq<State>, steps: seq<Step>, k: nat, m: nat, n: nat)
    requires IsSchedule(run, steps) && k < m <= n < |run|
    requires HasView(run[n].loop)
    requires forall j :: k < j < n ==> steps[j] != Probe(Snapshot)
    ensures HasView(run[m].loop)
  {
    if !HasView(run[m].loop) {
      forall s: State, step | !HasView(s.loop) && step != Probe(Snapshot) && Next(s, step).Some?
        ensures !HasView(Next(s, step).value.loop)
      {
        StepMoves(s, step);
      }
      Runs.Preserved(Next, (s: State) => !HasView(s.loop), step => step != Probe(Snapshot), run, steps, m, n);
    }
  }

  /**
   The loop and shutdown leave requests alone, a closed fence lets
   nothing new register, and only an automatic mutation completes its own registration.
   */
  ghost predicate Fencing(s: State, t: State) {
    && t.mutators == s.mutators
    && (s.lock.closed ==> t.lock.closed && (AdmittedAt(t) ==> AdmittedAt(s)))
    && (s.lock.closed && t.lock.pending != s.lock.pending ==> AutoRegistered(s.loop))
    && (t.lock.finished != s.lock.finished ==> AutoRegistered(s.loop))
  }

  lemma ApproachFencing(s: State, move: ApproachMove)
    requires ApproachStep(s, move).Some?
    ensures Fencing(s, ApproachStep(s, move).value)
  {
  }

  lemma ProbeFencing(s: State, move: ProbeMove)
    requires ProbeStep(s, move).Some?
    ensures Fencing(s, ProbeStep(s, move).value)
  {
  }

  lemma ClaimFencing(s: State)
    requires ClaimStep(s).Some?
    ensures Fencing(s, ClaimStep(s).value)
  {
  }

  lemma HandoffFencing(s: State, move: HandoffMove)
    requires HandoffStep(s, move).Some?
    ensures Fencing(s, HandoffStep(s, move).value)
  {
  }

  lemma ShutdownFencing(s: State, move: ShutdownMove)
    requires ShutdownStep(s, move).Some?
    ensures Fencing(s, ShutdownStep(s, move).value)
  {
  }

  lemma StepFencing(s: State, step: Step)
    requires Next(s, step).Some? && !step.Request?
    ensures Fencing(s, Next(s, step).value)
  {
    match step
    case Publish(_) =>
    case NotifySignal =>
    case Approach(move) => ApproachFencing(s, move);
    case Probe(move) => ProbeFencing(s, move);
    case Claim => ClaimFencing(s);
    case Handoff(move) => HandoffFencing(s, move);
    case Shutdown(move) => ShutdownFencing(s, move);
  }

  predicate FinishesRequest(step: Step) {
    step.Request? && step.move.Finish?
  }

  /** Only finishMutation and an automatic Release complete a registration. */
  lemma FinishedMoves(s: State, step: Step)
    requires Next(s, step).Some? && !FinishesRequest(step) && HasView(s.loop)
    ensures Next(s, step).value.lock.finished == s.lock.finished
  {
    if step.Request? {
      MutatorFinished(s, step.id, step.move);
    } else {
      StepFencing(s, step);
    }
  }

  lemma MutatorFinished(s: State, i: Id, move: MutatorMove)
    requires MutatorStep(s, i, move).Some? && !move.Finish?
    ensures MutatorStep(s, i, move).value.lock.finished == s.lock.finished
  {
  }

  lemma {:induction false} NothingFinished(run: seq<State>, steps: seq<Step>, k: nat, m: nat, n: nat)
    requires IsSchedule(run, steps) && k < m <= n < |run| && HasView(run[n].loop)
    requires forall j :: k < j < n ==> steps[j] != Probe(Snapshot) && !FinishesRequest(steps[j])
    ensures run[m].lock.finished == run[k + 1].lock.finished
    decreases m
  {
    if m > k + 1 {
      NothingFinished(run, steps, k, m - 1, n);
      ViewThroughout(run, steps, k, m - 1, n);
      assert Next(run[m - 1], steps[m - 1]) == Some(run[m]);
      FinishedMoves(run[m - 1], steps[m - 1]);
    }
  }

  /**
   Exactly when an admitted mutation acts on evidence no lifecycle mutation has invalidated:
   a registration completes between the snapshot and the admission if and only if the snapshot's
   own `pending` flag was set. With the flag clear no request-facing mutation moves at all.
   */
  lemma AdmissionUndisturbed(run: seq<State>, steps: seq<Step>, k: nat, n: nat)
    requires IsSchedule(run, steps) && k < n < |steps|
    requires steps[k] == Probe(Snapshot) && steps[n] == Claim && AdmittedAt(run[n + 1])
    requires forall m :: k < m < n ==> steps[m] != Probe(Snapshot)
    ensures (exists m :: k < m < n && FinishesRequest(steps[m])) <==> run[k].lock.pending > 0
    ensures run[k].lock.pending == 0 ==> forall m :: k < m < n ==> !steps[m].Request?
  {
    AdmissionFresh(run, steps, k, n);
    assert Next(run[n], steps[n]) == Some(run[n + 1]);
    assert Next(run[k], steps[k]) == Some(run[k + 1]);
    ReachableInv(run, steps, k);
    if run[k].lock.pending > 0 {
      if forall m :: k < m < n ==> !FinishesRequest(steps[m]) {
        NothingFinished(run, steps, k, n, n);
        assert false;
      }
    } else {
      var quiet := (step: Step) => !(step.Request? && step.move.Declare?);
      forall s: State, step | s.mutators == map[] && quiet(step) && Next(s, step).Some?
        ensures Next(s, step).value.mutators == map[]
      {
        if !step.Request? { StepFencing(s, step); }
      }
      forall m | k < m < n ensures !steps[m].Request? {
        Runs.Preserved(Next, (s: State) => s.mutators == map[], quiet, run, steps, k, m);
        assert Next(run[m], steps[m]) == Some(run[m + 1]);
      }
    }
  }

  const WORK := Work(Link, 1)
  const VIEW := View(1, 1, 0)

  /** Nobody owes anything and the loop has work in hand. */
  const QUEUED := Queue(false, 1, None, 0, Some(WORK), false, 0)

  /** The loop owns the token and has rechecked; then a request declares itself. */
  const DECLARED := State(Lock(false, LoopThread, 1, 1, 1, false, false, false, 0), QUEUED, map[0 := Declared],
                          Probing(WORK, Clear), Serving)

  /** The probe has decided on a mutation and returned the token. */
  const DECIDED := DECLARED.(lock := GiveBack(DECLARED.lock), loop := Probing(WORK, Decided(Some(VIEW), false)))

  /** The request took the token. */
  const HELD := DECIDED.(queue := QUEUED.(trigger := Some(Link), pending := 1, wake := true, cancelled := true),
                         lock := Grab(DECIDED.lock, ByMutator(0)), mutators := map[0 := Holding])

  lemma RunToDeclared() returns (run: seq<State>, steps: seq<Step>)
    ensures Runs.IsRun(Next, run, steps) && |steps| == 9 && run[0] == INIT && run[9] == DECLARED
  {
    var s1 := INIT.(queue := Queue(false, 1, Some(Link), 1, None, false, 1));
    var s2 := INIT.(queue := Queue(true, 1, Some(Link), 1, None, false, 0));
    var s3 := INIT.(queue := Queue(false, 1, Some(Link), 1, None, false, 0), loop := Woken);
    var s4 := INIT.(queue := Queue(false, 1, None, 0, None, false, 0), loop := Taken(WORK));
    var s5 := INIT.(queue := QUEUED, loop := Probing(WORK, Draining));
    var s6 := s5.(loop := Probing(WORK, IdleSeen));
    var s7 := s5.(lock := Grab(INIT.lock, LoopThread), loop := Probing(WORK, TokenTaken));
    var s8 := s7.(loop := Probing(WORK, Clear));
    steps := [Publish(Link), NotifySignal, Approach(Wake), Approach(Take), Approach(SetActive), Approach(AwaitIdle),
              Approach(LoopAcquire), Approach(Recheck), Request(0, Declare)];
    run := [INIT, s1, s2, s3, s4, s5, s6, s7, s8, DECLARED];
    assert INIT.mutators[0 := Declared] == DECLARED.mutators;
  }

  lemma RunToHeld() returns (run: seq<State>, steps: seq<Step>)
    ensures Runs.IsRun(Next, run, steps) && run[0] == DECLARED
    ensures steps == [Probe(Snapshot), Probe(Observe(true)),
                      Request(0, Interrupt), Request(0, Signal), Request(0, Acquire)]
    ensures run[5] == HELD
  {
    var s10 := DECLARED.(loop := Probing(WORK, Observing(VIEW)));
    var s12 := DECIDED.(queue := HELD.queue.(wake := false), mutators := map[0 := Signalling(true)]);
    var s13 := DECIDED.(queue := HELD.queue, mutators := map[0 := Waiting]);
    steps := [Probe(Snapshot), Probe(Observe(true)), Request(0, Interrupt), Request(0, Signal), Request(0, Acquire)];
    run := [DECLARED, s10, DECIDED, s12, s13, HELD];
    assert DECIDED.mutators[0 := Signalling(true)] == s12.mutators;
    assert s12.mutators[0 := Waiting] == s13.mutators;
    assert s13.mutators[0 := Holding] == HELD.mutators;
  }

  lemma RunToAdmitted() returns (run: seq<State>, steps: seq<Step>)
    ensures Runs.IsRun(Next, run, steps) && run[0] == HELD
    ensures steps == [Request(0, ReturnToken), Request(0, Finish), Claim]
    ensures run[3].loop == Probing(WORK, Admitted(VIEW))
  {
    var s15 := HELD.(lock := GiveBack(HELD.lock), mutators := map[0 := Leaving]);
    var s16 := s15.(lock := Unregister(s15.lock), mutators := map[]);
    steps := [Request(0, ReturnToken), Request(0, Finish), Claim];
    run := [HELD, s15, s16, Next(s16, Claim).value];
    assert HELD.mutators[0 := Leaving] == s15.mutators;
    assert s15.mutators - {0} == s16.mutators;
  }

  /**
   The guard is needed: a mutation declared between the recheck and the snapshot, interrupted only
   after the evidence is complete, runs and finishes before the claim, and the claim still succeeds.
   */
  lemma AdmissionAfterMutation() returns (run: seq<State>, steps: seq<Step>)
    ensures IsSchedule(run, steps)
    ensures |steps| == 17 && steps[9] == Probe(Snapshot) && run[9].lock.pending == 1
    ensures steps[13] == Request(0, Acquire) && steps[15] == Request(0, Finish)
    ensures steps[16] == Claim && AdmittedAt(run[17])
  {
    var run1, steps1 := RunToDeclared();
    var run2, steps2 := RunToHeld();
    var run3, steps3 := RunToAdmitted();
    Runs.Joined(Next, run1, steps1, run2, steps2);
    Runs.Joined(Next, run1 + run2[1..], steps1 + steps2, run3, steps3);
    run, steps := run1 + run2[1..] + run3[1..], steps1 + steps2 + steps3;
  }

  /**
   After the fence and a successful drain, shutdown owns the rest of the run: nothing is registered,
   no automatic mutation runs or is admitted, and no request can be declared.
   */
  lemma ShutdownIsLast(run: seq<State>, steps: seq<Step>, k: nat, n: nat)
    requires IsSchedule(run, steps) && k <= n < |run| && run[k].shutdown.Drained?
    ensures run[n].mutators == map[] && !AutoRegistered(run[n].loop)
    ensures n < |steps| ==> !steps[n].Request?
    ensures n < |steps| ==> !AdmittedAt(run[n + 1])
  {
    var p := (s: State) => Inv(s) && s.lock.closed && s.lock.pending == 0;
    ReachableInv(run, steps, k);
    forall s, step | p(s) && Next(s, step).Some? ensures p(Next(s, step).value) {
      StepKeepsInv(s, step);
      DrainedStays(s, step);
    }
    Runs.Preserved(Next, p, step => true, run, steps, k, n);
    if n < |steps| {
      assert Next(run[n], steps[n]) == Some(run[n + 1]);
      DrainedStays(run[n], steps[n]);
    }
  }

  lemma DrainedStays(s: State, step: Step)
    requires Inv(s) && s.lock.closed && s.lock.pending == 0 && Next(s, step).Some?
    ensures Next(s, step).value.lock.closed && Next(s, step).value.lock.pending == 0
    ensures !step.Request? && !AdmittedAt(Next(s, step).value)
  {
    assert s.mutators == map[];
    if !step.Request? { StepFencing(s, step); }
  }
}
