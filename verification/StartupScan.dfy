/**
 The single-flight startup scan, as interleaved steps of any number of Refresh and ForceRefresh
 callers. Every step is one critical section of refreshMu, one channel receive or one scan.
 */
module StartupScan {
  import opened Wrappers
  import Runs

  type Id = nat

  /** A scan result; a real one remembers the generation that was current when it began. */
  datatype Scan = Initial | Incomplete | Real(began: nat)

  datatype Caller =
    | ForceWaiting(done: nat, generation: nat)
    | RefreshWaiting(done: nat, generation: nat, awaited: nat)  // awaited: what the running scan was started for
    | Scanning(done: nat, generation: nat, began: nat)
    | Publishing(done: nat, generation: nat, scan: Scan)
    | Finishing(done: nat, generation: nat, result: Scan)
    | Current(generation: nat, awaited: nat)                    // waiter saw its generation unchanged
    | Returned(generation: nat, result: Scan)

  /** The scan in flight: its channel, its caller and the generation it was started for. */
  datatype Flight = Flight(done: nat, caller: Id, generation: nat)

  datatype State = State(
    flight: Option<Flight>,     // refreshDone
    nextDone: nat,
    closed: set<nat>,
    generation: nat,            // refreshGeneration
    scan: Scan,
    callers: map<Id, Caller>
  )

  const INIT := State(None, 0, {}, 0, Initial, map[])

  datatype Move =
    | EnterRefresh
    | EnterForce
    | Complete(cancelled: bool)
    | Publish
    | Finish
    | Wake
    | Cancel
    | ReturnSnapshot

  datatype Step = Step(id: Id, move: Move)

  function Put(s: State, i: Id, c: Caller): State {
    s.(callers := s.callers[i := c])
  }

  /** startRefreshLocked up to the unlock. */
  function Start(s: State, i: Id, generation: nat): State {
    Put(s, i, Scanning(s.nextDone, generation, s.generation))
      .(flight := Some(Flight(s.nextDone, i, generation)), nextDone := s.nextDone + 1)
  }

  /** The head of Refresh's loop. */
  function Refresh(s: State, i: Id): State {
    if s.flight.Some? then Put(s, i, RefreshWaiting(s.flight.value.done, s.generation, s.flight.value.generation))
    else Start(s, i, s.generation)
  }

  /** The head of ForceRefresh's loop. */
  function Force(s: State, i: Id, generation: nat): State {
    if s.flight.Some? then Put(s, i, ForceWaiting(s.flight.value.done, generation)) else Start(s, i, generation)
  }

  /** publishScan. */
  function Published(s: State, generation: nat, scan: Scan): State {
    if generation == s.generation then s.(scan := scan) else s
  }

  function Act(s: State, i: Id, move: Move): Option<State> {
    if move.EnterRefresh? then if i in s.callers then None else Some(Refresh(s, i))
    else if move.EnterForce? then
      if i in s.callers then None else Some(Force(s.(generation := s.generation + 1), i, s.generation + 1))
    else if i !in s.callers then None
    else
      match (move, s.callers[i])
      case (Complete(cancelled), Scanning(done, generation, began)) =>
        Some(Put(s, i, Publishing(done, generation, if cancelled then Incomplete else Real(began))))
      case (Publish, Publishing(done, generation, scan)) =>
        Some(Put(Published(s, generation, scan), i,
                 Finishing(done, generation, if generation == s.generation then scan else Incomplete)))
      case (Finish, Finishing(done, generation, result)) =>
        if s.flight.Some? && s.flight.value.done == done then
          Some(Put(s, i, Returned(generation, result)).(flight := None, closed := s.closed + {done}))
        else Some(Put(s, i, Returned(generation, result)))
      case (Wake, ForceWaiting(done, generation)) =>
        if done in s.closed then Some(Force(s, i, generation)) else None
      case (Wake, RefreshWaiting(done, generation, awaited)) =>
        if done !in s.closed then None
        else if generation == s.generation then Some(Put(s, i, Current(generation, awaited)))
        else Some(Refresh(s, i))
      case (Cancel, ForceWaiting(_, generation)) =>
        Some(Put(Published(s, generation, Incomplete), i, Returned(generation, Incomplete)))
      case (Cancel, RefreshWaiting(_, generation, _)) => Some(Put(s, i, Returned(generation, Incomplete)))
      case (ReturnSnapshot, Current(generation, _)) => Some(Put(s, i, Returned(generation, s.scan)))
      case _ => None
  }

  function Next(s: State, step: Step): Option<State> {
    Act(s, step.id, step.move)
  }

  ghost predicate IsSchedule(run: seq<State>, steps: seq<Step>) {
    Runs.IsRun(Next, run, steps) && run[0] == INIT
  }

  // ---------------------------------------------------------------- invariant

  predicate InFlight(c: Caller) {
    c.Scanning? || c.Publishing? || c.Finishing?
  }

  predicate FreshEnough(scan: Scan, generation: nat) {
    scan.Real? ==> generation <= scan.began
  }

  /** What one caller relies on. */
  ghost predicate CallerInv(s: State, i: Id, c: Caller) {
    && c.generation <= s.generation
    && (InFlight(c) ==> s.flight == Some(Flight(c.done, i, c.generation)))
    && (c.Scanning? ==> c.generation <= c.began <= s.generation)
    && (c.Publishing? ==> !c.scan.Initial? && FreshEnough(c.scan, c.generation))
    && (c.Publishing? && c.scan.Real? ==> c.scan.began <= s.generation)
    && (c.Finishing? ==> !c.result.Initial? && FreshEnough(c.result, c.generation))
    && (c.Finishing? && c.generation == s.generation ==> PublishedAt(s.scan, c.generation))
    && (c.ForceWaiting? ==> c.done in s.closed || (s.flight.Some? && s.flight.value.done == c.done))
    && (c.RefreshWaiting? ==> c.awaited <= c.generation)
    && (c.RefreshWaiting? && c.done !in s.closed ==>
          s.flight.Some? && s.flight.value.done == c.done && s.flight.value.generation == c.awaited)
    && (c.RefreshWaiting? && c.done in s.closed && c.awaited == c.generation == s.generation ==>
          PublishedAt(s.scan, c.generation))
    && (c.Current? && c.awaited == c.generation ==> PublishedAt(s.scan, c.generation))
  }

  /** The stored scan was published under this generation or a later one. */
  predicate PublishedAt(scan: Scan, generation: nat) {
    !scan.Initial? && FreshEnough(scan, generation)
  }

  ghost predicate Inv(s: State) {
    && (s.scan.Real? ==> s.scan.began <= s.generation)
    && (s.flight.Some? ==> s.flight.value.done < s.nextDone && s.flight.value.done !in s.closed)
    && (s.flight.Some? ==> s.flight.value.caller in s.callers && InFlight(s.callers[s.flight.value.caller]))
    && (s.flight.Some? ==> s.flight.value.generation <= s.generation)
    && (forall d :: d in s.closed ==> d < s.nextDone)
    && (forall i :: i in s.callers ==> CallerInv(s, i, s.callers[i]))
  }

  /** Nothing another caller relies on is disturbed. */
  lemma OthersKept(s: State, t: State, i: Id)
    requires Inv(s)
    requires forall j :: j in t.callers && j != i ==> j in s.callers && t.callers[j] == s.callers[j]
    requires t.generation == s.generation || (t.generation == s.generation + 1 && t.scan == s.scan)
    requires s.closed <= t.closed
    requires s.flight == t.flight || (s.flight.None? && t.closed == s.closed) ||
      (s.flight.Some? && s.flight.value.caller == i && t.flight.None? && t.closed == s.closed + {s.flight.value.done}
      && (s.flight.value.generation == s.generation ==> PublishedAt(s.scan, s.generation)))
    requires s.flight == t.flight ==> t.closed == s.closed
    requires t.scan == s.scan || PublishedAt(t.scan, t.generation)
    ensures forall j :: j in t.callers && j != i ==> CallerInv(t, j, t.callers[j])
  {
    forall j | j in t.callers && j != i ensures CallerInv(t, j, t.callers[j]) {
      assert CallerInv(s, j, s.callers[j]);
    }
  }

  lemma StartKeepsInv(s: State, i: Id, generation: nat)
    requires Inv(s) && s.flight.None? && generation <= s.generation
    requires i in s.callers ==> !InFlight(s.callers[i])
    ensures Inv(Start(s, i, generation))
  {
    OthersKept(s, Start(s, i, generation), i);
  }

  lemma BumpKeepsInv(s: State)
    requires Inv(s)
    ensures Inv(s.(generation := s.generation + 1))
  {
    forall i | i in s.callers ensures CallerInv(s.(generation := s.generation + 1), i, s.callers[i]) {
      assert CallerInv(s, i, s.callers[i]);
    }
  }

  /** A caller that only moves itself. */
  lemma PutKeepsInv(s: State, i: Id, c: Caller)
    requires Inv(s) && CallerInv(s, i, c)
    requires s.flight.Some? && s.flight.value.caller == i ==> InFlight(c)
    ensures Inv(Put(s, i, c))
  {
    OthersKept(s, Put(s, i, c), i);
  }

  lemma RefreshKeepsInv(s: State, i: Id)
    requires Inv(s) && (i in s.callers ==> !InFlight(s.callers[i]))
    ensures Inv(Refresh(s, i))
  {
    if s.flight.Some? {
      PutKeepsInv(s, i, RefreshWaiting(s.flight.value.done, s.generation, s.flight.value.generation));
    } else {
      StartKeepsInv(s, i, s.generation);
    }
  }

  lemma ForceKeepsInv(s: State, i: Id, generation: nat)
    requires Inv(s) && generation <= s.generation && (i in s.callers ==> !InFlight(s.callers[i]))
    ensures Inv(Force(s, i, generation))
  {
    if s.flight.Some? {
      PutKeepsInv(s, i, ForceWaiting(s.flight.value.done, generation));
    } else {
      StartKeepsInv(s, i, generation);
    }
  }

  lemma PublishedKeepsInv(s: State, generation: nat, scan: Scan)
    requires Inv(s) && !scan.Initial? && FreshEnough(scan, generation) && (scan.Real? ==> scan.began <= s.generation)
    ensures Inv(Published(s, generation, scan))
  {
    var t := Published(s, generation, scan);
    forall i | i in t.callers ensures CallerInv(t, i, t.callers[i]) {
      assert CallerInv(s, i, s.callers[i]);
    }
  }

  lemma FinishKeepsInv(s: State, i: Id)
    requires Inv(s) && i in s.callers && s.callers[i].Finishing?
    ensures Act(s, i, Finish).Some? && Inv(Act(s, i, Finish).value)
  {
    assert CallerInv(s, i, s.callers[i]);
    OthersKept(s, Act(s, i, Finish).value, i);
  }

  lemma StepKeepsInv(s: State, step: Step)
    requires Inv(s) && Next(s, step).Some?
    ensures Inv(Next(s, step).value)
  {
    var i, move := step.id, step.move;
    match move
    case EnterRefresh => RefreshKeepsInv(s, i);
    case EnterForce => EnterForceKeepsInv(s, i);
    case Finish => FinishKeepsInv(s, i);
    case Complete(cancelled) => CompleteKeepsInv(s, i, cancelled);
    case Publish => PublishKeepsInv(s, i);
    case Wake => WakeKeepsInv(s, i);
    case Cancel => CancelKeepsInv(s, i);
    case ReturnSnapshot => ReturnKeepsInv(s, i);
  }

  lemma EnterForceKeepsInv(s: State, i: Id)
    requires Inv(s) && i !in s.callers
    ensures Inv(Force(s.(generation := s.generation + 1), i, s.generation + 1))
  {
    BumpKeepsInv(s);
    ForceKeepsInv(s.(generation := s.generation + 1), i, s.generation + 1);
  }

  lemma ReturnKeepsInv(s: State, i: Id)
    requires Inv(s) && i in s.callers && s.callers[i].Current?
    ensures Inv(Put(s, i, Returned(s.callers[i].generation, s.scan)))
  {
    assert CallerInv(s, i, s.callers[i]);
    PutKeepsInv(s, i, Returned(s.callers[i].generation, s.scan));
  }

  lemma CompleteKeepsInv(s: State, i: Id, cancelled: bool)
    requires Inv(s) && Act(s, i, Complete(cancelled)).Some?
    ensures Inv(Act(s, i, Complete(cancelled)).value)
  {
    var c := s.callers[i];
    assert CallerInv(s, i, c);
    PutKeepsInv(s, i, Publishing(c.done, c.generation, if cancelled then Incomplete else Real(c.began)));
  }

  lemma PublishKeepsInv(s: State, i: Id)
    requires Inv(s) && Act(s, i, Publish).Some?
    ensures Inv(Act(s, i, Publish).value)
  {
    var c := s.callers[i];
    assert CallerInv(s, i, c);
    PublishedKeepsInv(s, c.generation, c.scan);
    PutKeepsInv(Published(s, c.generation, c.scan), i,
                Finishing(c.done, c.generation, if c.generation == s.generation then c.scan else Incomplete));
  }

  lemma WakeKeepsInv(s: State, i: Id)
    requires Inv(s) && Act(s, i, Wake).Some?
    ensures Inv(Act(s, i, Wake).value)
  {
    var c := s.callers[i];
    assert CallerInv(s, i, c);
    if c.ForceWaiting? {
      ForceKeepsInv(s, i, c.generation);
    } else if c.generation == s.generation {
      PutKeepsInv(s, i, Current(c.generation, c.awaited));
    } else {
      RefreshKeepsInv(s, i);
    }
  }

  lemma CancelKeepsInv(s: State, i: Id)
    requires Inv(s) && Act(s, i, Cancel).Some?
    ensures Inv(Act(s, i, Cancel).value)
  {
    var c := s.callers[i];
    assert CallerInv(s, i, c);
    if c.ForceWaiting? {
      PublishedKeepsInv(s, c.generation, Incomplete);
      PutKeepsInv(Published(s, c.generation, Incomplete), i, Returned(c.generation, Incomplete));
    } else {
      PutKeepsInv(s, i, Returned(c.generation, Incomplete));
    }
  }

  lemma ReachableInv(run: seq<State>, steps: seq<Step>, k: nat)
    requires IsSchedule(run, steps) && k < |run|
    ensures Inv(run[k])
  {
    forall s, step | Inv(s) && Next(s, step).Some? ensures Inv(Next(s, step).value) {
      StepKeepsInv(s, step);
    }
    Runs.Preserved(Next, s => Inv(s), step => true, run, steps, 0, k);
  }

  // ---------------------------------------------------------------- results

  /** At most one scan runs at a time. */
  lemma SingleFlight(run: seq<State>, steps: seq<Step>, k: nat, i: Id, j: Id)
    requires IsSchedule(run, steps) && k < |run| && i in run[k].callers && j in run[k].callers
    requires InFlight(run[k].callers[i]) && InFlight(run[k].callers[j])
    ensures i == j
  {
    ReachableInv(run, steps, k);
    assert CallerInv(run[k], i, run[k].callers[i]) && CallerInv(run[k], j, run[k].callers[j]);
  }

  /** No caller waits on a channel nobody will close: the scan it waits for is over or still runs. */
  lemma WaitersServed(run: seq<State>, steps: seq<Step>, k: nat, i: Id)
    requires IsSchedule(run, steps) && k < |run| && i in run[k].callers
    requires run[k].callers[i].ForceWaiting? || run[k].callers[i].RefreshWaiting?
    requires forall j :: j in run[k].callers ==> !InFlight(run[k].callers[j])
    ensures Act(run[k], i, Wake).Some?
  {
    ReachableInv(run, steps, k);
    assert CallerInv(run[k], i, run[k].callers[i]);
  }

  lemma GenerationMoves(s: State, step: Step)
    requires Next(s, step).Some?
    ensures s.generation <= Next(s, step).value.generation
  {
  }

  lemma GenerationGrows(run: seq<State>, steps: seq<Step>, k: nat, n: nat)
    requires IsSchedule(run, steps) && k <= n < |run|
    ensures run[k].generation <= run[n].generation
  {
    var g := run[k].generation;
    forall s: State, step | g <= s.generation && Next(s, step).Some? ensures g <= Next(s, step).value.generation {
      GenerationMoves(s, step);
    }
    Runs.Preserved(Next, (s: State) => g <= s.generation, step => true, run, steps, k, n);
  }

  lemma PublicationFresh(s: State, step: Step)
    requires Inv(s) && Next(s, step).Some? && Next(s, step).value.scan != s.scan
    ensures PublishedAt(Next(s, step).value.scan, s.generation)
  {
    assert CallerInv(s, step.id, s.callers[step.id]);
  }

  /** Once a ForceRefresh has bumped the generation, every scan published later began after that bump. */
  lemma PublishedAfterBump(run: seq<State>, steps: seq<Step>, k: nat, n: nat)
    requires IsSchedule(run, steps) && k < n < |steps| && steps[k].move.EnterForce? && run[n + 1].scan != run[n].scan
    ensures PublishedAt(run[n + 1].scan, run[k + 1].generation)
  {
    assert Next(run[n], steps[n]) == Some(run[n + 1]);
    ReachableInv(run, steps, n);
    PublicationFresh(run[n], steps[n]);
    GenerationGrows(run, steps, k + 1, n);
  }

  /** Caller `i` is on its way through ForceRefresh, or back from it with a scan of its own generation. */
  ghost predicate Forcing(s: State, i: Id, generation: nat) {
    && i in s.callers && s.callers[i].generation == generation
    && !s.callers[i].RefreshWaiting? && !s.callers[i].Current?
    && (s.callers[i].Returned? ==> PublishedAt(s.callers[i].result, generation))
  }

  lemma ForcingKept(s: State, step: Step, i: Id, generation: nat)
    requires Inv(s) && Forcing(s, i, generation) && Next(s, step).Some?
    ensures Forcing(Next(s, step).value, i, generation)
  {
    if step.id == i {
      ForcingOwn(s, step.move, i, generation);
    } else {
      OthersMove(s, step, i);
    }
  }

  lemma ForcingOwn(s: State, move: Move, i: Id, generation: nat)
    requires Inv(s) && Forcing(s, i, generation) && Act(s, i, move).Some?
    ensures Forcing(Act(s, i, move).value, i, generation)
  {
    assert CallerInv(s, i, s.callers[i]);
  }

  /** ForceRefresh returns a scan that began after its own bump, or an incomplete marker. */
  lemma ForceReturnsFresh(run: seq<State>, steps: seq<Step>, k: nat, n: nat)
    requires IsSchedule(run, steps) && k < n < |run| && steps[k].move.EnterForce?
    requires steps[k].id in run[n].callers && run[n].callers[steps[k].id].Returned?
    ensures PublishedAt(run[n].callers[steps[k].id].result, run[k + 1].generation)
  {
    var i, g := steps[k].id, run[k + 1].generation;
    assert Next(run[k], steps[k]) == Some(run[k + 1]);
    ReachableInv(run, steps, k + 1);
    forall s, step | Inv(s) && Forcing(s, i, g) && Next(s, step).Some?
      ensures Inv(Next(s, step).value) && Forcing(Next(s, step).value, i, g)
    {
      StepKeepsInv(s, step);
      ForcingKept(s, step, i, g);
    }
    Runs.Preserved(Next, s => Inv(s) && Forcing(s, i, g), step => true, run, steps, k + 1, n);
  }

  // ---------------------------------------------------------------- what a waiting Refresh may rely on

  /** A schedule that continues from `s` and ends with caller `i` returning `result`. */
  ghost predicate Answers(s: State, i: Id, run: seq<State>, steps: seq<Step>, result: Caller) {
    && Runs.IsRun(Next, run, steps) && run[0] == s && result.Returned?
    && i in run[|steps|].callers && run[|steps|].callers[i] == result
  }

  /** Whatever happens next, an answer given under the generation the waiter read is of that generation. */
  ghost predicate SureOfRound(s: State, i: Id, g: nat) {
    forall run, steps, result :: Answers(s, i, run, steps, result) && result.generation == g ==>
      PublishedAt(result.result, g)
  }

  /** Whatever happens next, the call's answer, given in this round or a later one, is at least of generation `g`. */
  ghost predicate SureOfCall(s: State, i: Id, g: nat) {
    forall run, steps, result :: Answers(s, i, run, steps, result) ==> PublishedAt(result.result, g)
  }

  predicate Waits(s: State, i: Id) {
    i in s.callers && s.callers[i].RefreshWaiting?
  }

  /** What keeps this round's answer fresh. */
  ghost predicate RoundKept(s: State, i: Id, g: nat) {
    && i in s.callers && g <= s.callers[i].generation
    && (s.callers[i].generation == g ==>
          match s.callers[i]
          case RefreshWaiting(_, _, awaited) => g < s.generation || awaited == g || PublishedAt(s.scan, g)
          case Current(_, _) => PublishedAt(s.scan, g)
          case Returned(_, result) => PublishedAt(result, g)
          case _ => false)
  }

  /** What keeps the whole call's answer fresh. */
  ghost predicate CallKept(s: State, i: Id, g: nat) {
    && PublishedAt(s.scan, g) && i in s.callers && g <= s.callers[i].generation && !s.callers[i].ForceWaiting?
    && (s.callers[i].Returned? ==> PublishedAt(s.callers[i].result, g))
  }

  /** Somebody else's step: the waiter stays, the stored scan and the generation only get newer. */
  lemma OthersMove(s: State, step: Step, i: Id)
    requires Inv(s) && i in s.callers && step.id != i && Next(s, step).Some?
    ensures var t := Next(s, step).value;
      && i in t.callers && t.callers[i] == s.callers[i] && s.generation <= t.generation
      && (t.scan == s.scan || PublishedAt(t.scan, s.generation))
  {
    GenerationMoves(s, step);
    if Next(s, step).value.scan != s.scan { PublicationFresh(s, step); }
  }

  lemma OwnRound(s: State, move: Move, i: Id, g: nat)
    requires Inv(s) && RoundKept(s, i, g) && Act(s, i, move).Some?
    ensures RoundKept(Act(s, i, move).value, i, g)
  {
    assert CallerInv(s, i, s.callers[i]);
  }

  lemma OwnCall(s: State, move: Move, i: Id, g: nat)
    requires Inv(s) && CallKept(s, i, g) && Act(s, i, move).Some?
    ensures CallKept(Act(s, i, move).value, i, g)
  {
    assert CallerInv(s, i, s.callers[i]);
  }

  lemma RoundKeeps(s: State, step: Step, i: Id, g: nat)
    requires Inv(s) && RoundKept(s, i, g) && Next(s, step).Some?
    ensures RoundKept(Next(s, step).value, i, g)
  {
    if step.id == i {
      OwnRound(s, step.move, i, g);
    } else {
      assert CallerInv(s, i, s.callers[i]);
      OthersMove(s, step, i);
    }
  }

  lemma CallKeeps(s: State, step: Step, i: Id, g: nat)
    requires Inv(s) && CallKept(s, i, g) && Next(s, step).Some?
    ensures CallKept(Next(s, step).value, i, g)
  {
    if step.id == i {
      OwnCall(s, step.move, i, g);
    } else {
      assert CallerInv(s, i, s.callers[i]);
      OthersMove(s, step, i);
    }
  }

  /** A scan of a generation that is no longer current ends without a trace: nobody else moves, nothing is stored. */
  lemma {:induction false} FlightEnds(s: State, r: Id) returns (run: seq<State>, steps: seq<Step>)
    requires Inv(s) && r in s.callers && InFlight(s.callers[r]) && s.callers[r].generation < s.generation
    ensures Runs.IsRun(Next, run, steps) && run[0] == s && r in run[|steps|].callers
    ensures run[|steps|].callers[r].Returned?
    ensures run[|steps|] == s.(flight := None, closed := s.closed + {s.callers[r].done},
                               callers := s.callers[r := run[|steps|].callers[r]])
    decreases if s.callers[r].Scanning? then 2 else if s.callers[r].Publishing? then 1 else 0
  {
    var c := s.callers[r];
    assert CallerInv(s, r, c);
    var step := Step(r, if c.Scanning? then Complete(false) else if c.Publishing? then Publish else Finish);
    var next := Next(s, step).value;
    StepKeepsInv(s, step);
    run, steps := [s, next], [step];
    if !c.Finishing? {
      var run2, steps2 := FlightEnds(next, r);
      Runs.Joined(Next, run, steps, run2, steps2);
      assert s.callers[r := run2[|steps2|].callers[r]] == next.callers[r := run2[|steps2|].callers[r]];
      run, steps := run + run2[1..], steps + steps2;
    }
  }

  /** The scan the waiter waits for is over; nothing else has changed that matters to it. */
  lemma AwaitedEnds(s: State, i: Id) returns (run: seq<State>, steps: seq<Step>)
    requires Inv(s) && Waits(s, i) && s.callers[i].awaited < s.generation
    ensures Runs.IsRun(Next, run, steps) && run[0] == s
    ensures var t := run[|steps|];
      && Waits(t, i) && t.callers[i] == s.callers[i] && t.callers[i].done in t.closed
      && t.scan == s.scan && t.generation == s.generation
  {
    assert CallerInv(s, i, s.callers[i]);
    run, steps := [s], [];
    if s.callers[i].done !in s.closed {
      var r := s.flight.value.caller;
      assert CallerInv(s, r, s.callers[r]);
      run, steps := FlightEnds(s, r);
    }
  }

  /** A waiter whose scan is over and whose generation is current is handed whatever is stored. */
  lemma HandedStored(s: State, i: Id) returns (run: seq<State>, steps: seq<Step>)
    requires Waits(s, i) && s.callers[i].done in s.closed && s.callers[i].generation == s.generation
    ensures Answers(s, i, run, steps, Returned(s.generation, s.scan))
  {
    steps := [Step(i, Wake), Step(i, ReturnSnapshot)];
    var t := Next(s, steps[0]).value;
    run := [s, t, Next(t, steps[1]).value];
  }

  /**
   If the awaited scan was started for an older generation and the stored one is not of this
   generation either, some schedule makes the waiter return that stale scan.
   */
  lemma RefreshStaleOtherwise(s: State, i: Id) returns (run: seq<State>, steps: seq<Step>)
    requires Inv(s) && Waits(s, i) && s.callers[i].generation == s.generation
    requires s.callers[i].awaited < s.generation && !PublishedAt(s.scan, s.generation)
    ensures Answers(s, i, run, steps, Returned(s.generation, s.scan))
  {
    var run1, steps1 := AwaitedEnds(s, i);
    var run2, steps2 := HandedStored(run1[|steps1|], i);
    Runs.Joined(Next, run1, steps1, run2, steps2);
    run, steps := run1 + run2[1..], steps1 + steps2;
    assert run[|steps|] == run2[|steps2|];
  }

  /**
   Exactly when a waiting Refresh can be sure of an answer given under the generation it read: it
   will not answer under it at all, the scan it waits for was started for it, or the stored scan
   already is of that generation.
   */
  lemma RefreshFreshIff(before: seq<State>, taken: seq<Step>, k: nat, i: Id)
    requires IsSchedule(before, taken) && k < |before| && Waits(before[k], i)
    ensures var s, c := before[k], before[k].callers[i];
      SureOfRound(s, i, c.generation)
      <==> c.generation < s.generation || c.awaited == c.generation || PublishedAt(s.scan, c.generation)
  {
    var s, g := before[k], before[k].callers[i].generation;
    ReachableInv(before, taken, k);
    assert CallerInv(s, i, s.callers[i]);
    if g < s.generation || s.callers[i].awaited == g || PublishedAt(s.scan, g) {
      forall run, steps, result | Answers(s, i, run, steps, result) && result.generation == g
        ensures PublishedAt(result.result, g)
      {
        forall a, step | Inv(a) && RoundKept(a, i, g) && Next(a, step).Some?
          ensures Inv(Next(a, step).value) && RoundKept(Next(a, step).value, i, g)
        {
          StepKeepsInv(a, step);
          RoundKeeps(a, step, i, g);
        }
        Runs.Preserved(Next, a => Inv(a) && RoundKept(a, i, g), step => true, run, steps, 0, |steps|);
      }
    } else {
      var run, steps := RefreshStaleOtherwise(s, i);
      assert Answers(s, i, run, steps, Returned(g, s.scan));
    }
  }

  lemma {:induction false} Unused(ids: set<Id>) returns (f: Id)
    ensures forall j :: j in ids ==> j < f
  {
    f := 0;
    if ids != {} {
      var j :| j in ids;
      var g := Unused(ids - {j});
      f := if j < g then g else j + 1;
      assert ids == (ids - {j}) + {j};
    }
  }

  /** Caller `f` scans for a generation already superseded, and the scan `i` waits for is over. */
  ghost predicate Superseded(s: State, t: State, i: Id, f: Id) {
    && Inv(t) && t.generation == s.generation + 2 && t.scan == s.scan
    && t.flight.Some? && t.flight.value.caller == f && t.flight.value.generation == s.generation + 1
    && i in s.callers && i in t.callers && t.callers[i] == s.callers[i] && s.callers[i].RefreshWaiting?
    && t.callers[i].done in t.closed
  }

  /** Two new callers force in turn. */
  lemma ForcedTwice(s: State, i: Id, f: Id) returns (run: seq<State>, steps: seq<Step>)
    requires Inv(s) && Waits(s, i) && f !in s.callers && f + 1 !in s.callers
    ensures Runs.IsRun(Next, run, steps) && run[0] == s
    ensures var t := run[|steps|];
      && Inv(t) && t.generation == s.generation + 2 && t.scan == s.scan && t.closed == s.closed
      && i in t.callers && t.callers[i] == s.callers[i] && f in t.callers
      && if s.flight.None? then t.flight == Some(Flight(s.nextDone, f, s.generation + 1))
         else t.flight == s.flight && t.callers[f] == ForceWaiting(s.flight.value.done, s.generation + 1)
  {
    steps := [Step(f, EnterForce), Step(f + 1, EnterForce)];
    var s1 := Next(s, steps[0]).value;
    StepKeepsInv(s, steps[0]);
    StepKeepsInv(s1, steps[1]);
    run := [s, s1, Next(s1, steps[1]).value];
  }

  /** The scan in flight ends and the first of the two takes over. */
  lemma TakesOver(s: State, f: Id) returns (run: seq<State>, steps: seq<Step>)
    requires Inv(s) && f in s.callers && s.callers[f].ForceWaiting? && s.flight.Some?
    requires s.flight.value.generation < s.generation
    requires s.callers[f].done == s.flight.value.done
    ensures Runs.IsRun(Next, run, steps) && run[0] == s
    ensures var t := run[|steps|];
      && Inv(t) && t.generation == s.generation && t.scan == s.scan
      && t.flight.Some? && t.flight.value.caller == f && t.flight.value.generation == s.callers[f].generation
      && t.closed == s.closed + {s.flight.value.done}
      && forall j :: j in s.callers && !InFlight(s.callers[j]) && j != f ==>
           j in t.callers && t.callers[j] == s.callers[j]
  {
    var r := s.flight.value.caller;
    assert CallerInv(s, r, s.callers[r]);
    var run1, steps1 := FlightEnds(s, r);
    RunKeepsInv(run1, steps1);
    var s1 := run1[|steps1|];
    var wake := Step(f, Wake);
    StepKeepsInv(s1, wake);
    Runs.Joined(Next, run1, steps1, [s1, Next(s1, wake).value], [wake]);
    run, steps := run1 + [s1, Next(s1, wake).value][1..], steps1 + [wake];
  }

  lemma RunKeepsInv(run: seq<State>, steps: seq<Step>)
    requires Runs.IsRun(Next, run, steps) && Inv(run[0])
    ensures Inv(run[|steps|])
  {
    forall s, step | Inv(s) && Next(s, step).Some? ensures Inv(Next(s, step).value) {
      StepKeepsInv(s, step);
    }
    Runs.Preserved(Next, s => Inv(s), step => true, run, steps, 0, |steps|);
  }

  lemma Overtaken(s: State, i: Id) returns (run: seq<State>, steps: seq<Step>, f: Id)
    requires Inv(s) && Waits(s, i)
    ensures Runs.IsRun(Next, run, steps) && run[0] == s && Superseded(s, run[|steps|], i, f)
  {
    f := Unused(s.callers.Keys);
    assert CallerInv(s, i, s.callers[i]);
    run, steps := ForcedTwice(s, i, f);
    if s.flight.Some? {
      var run2, steps2 := TakesOver(run[|steps|], f);
      Runs.Joined(Next, run, steps, run2, steps2);
      run, steps := run + run2[1..], steps + steps2;
      assert run[|steps|] == run2[|steps2|];
    }
  }

  /** From any waiting state with a stale scan stored, two more forces can make the call return that scan. */
  lemma CallStaleOtherwise(s: State, i: Id) returns (run: seq<State>, steps: seq<Step>)
    requires Inv(s) && Waits(s, i) && !PublishedAt(s.scan, s.callers[i].generation)
    ensures Answers(s, i, run, steps, Returned(s.generation + 2, s.scan))
  {
    assert CallerInv(s, i, s.callers[i]);
    var run1, steps1, f := Overtaken(s, i);
    var s1, wake := run1[|steps1|], Step(i, Wake);
    var s2 := Next(s1, wake).value;
    StepKeepsInv(s1, wake);
    Runs.Joined(Next, run1, steps1, [s1, s2], [wake]);
    run, steps := run1 + [s1, s2][1..], steps1 + [wake];
    var run3, steps3 := RefreshStaleOtherwise(s2, i);
    Runs.Joined(Next, run, steps, run3, steps3);
    run, steps := run + run3[1..], steps + steps3;
    assert run[|steps|] == run3[|steps3|];
  }

  /** Exactly when a waiting Refresh can be sure of the call's answer, over every round it may take. */
  lemma CallFreshIff(before: seq<State>, taken: seq<Step>, k: nat, i: Id)
    requires IsSchedule(before, taken) && k < |before| && Waits(before[k], i)
    ensures SureOfCall(before[k], i, before[k].callers[i].generation)
      <==> PublishedAt(before[k].scan, before[k].callers[i].generation)
  {
    var s, g := before[k], before[k].callers[i].generation;
    ReachableInv(before, taken, k);
    assert CallerInv(s, i, s.callers[i]);
    if PublishedAt(s.scan, g) {
      forall run, steps, result | Answers(s, i, run, steps, result) ensures PublishedAt(result.result, g) {
        forall a, step | Inv(a) && CallKept(a, i, g) && Next(a, step).Some?
          ensures Inv(Next(a, step).value) && CallKept(Next(a, step).value, i, g)
        {
          StepKeepsInv(a, step);
          CallKeeps(a, step, i, g);
        }
        Runs.Preserved(Next, a => Inv(a) && CallKept(a, i, g), step => true, run, steps, 0, |steps|);
      }
    } else {
      var run, steps := CallStaleOtherwise(s, i);
      assert Answers(s, i, run, steps, Returned(s.generation + 2, s.scan));
    }
  }

  /** The stored scan is of generation 0, another scan of generation 0 runs, and a force has bumped to 1. */
  const BUMPED := State(Some(Flight(1, 1, 0)), 2, {0}, 1, Real(0),
                        map[0 := Returned(0, Real(0)), 1 := Scanning(1, 0, 0),
                            2 := ForceWaiting(1, 1), 3 := RefreshWaiting(1, 1, 0)])

  /** One scan of generation 0 is over and stored. */
  const STORED := State(None, 1, {0}, 0, Real(0), map[0 := Returned(0, Real(0))])

  lemma RunToStored() returns (run: seq<State>, steps: seq<Step>)
    ensures IsSchedule(run, steps) && |steps| == 4 && run[4] == STORED
  {
    var s1 := INIT.(flight := Some(Flight(0, 0, 0)), nextDone := 1, callers := map[0 := Scanning(0, 0, 0)]);
    var s2 := s1.(callers := map[0 := Publishing(0, 0, Real(0))]);
    var s3 := s2.(scan := Real(0), callers := map[0 := Finishing(0, 0, Real(0))]);
    steps := [Step(0, EnterRefresh), Step(0, Complete(false)), Step(0, Publish), Step(0, Finish)];
    run := [INIT, s1, s2, s3, STORED];
    assert INIT.callers[0 := Scanning(0, 0, 0)] == s1.callers;
    assert s1.callers[0 := Publishing(0, 0, Real(0))] == s2.callers;
    assert s2.callers[0 := Finishing(0, 0, Real(0))] == s3.callers;
    assert s3.callers[0 := Returned(0, Real(0))] == STORED.callers && s3.closed + {0} == STORED.closed;
  }

  lemma StoredToBumped() returns (run: seq<State>, steps: seq<Step>)
    ensures steps == [Step(1, EnterRefresh), Step(2, EnterForce), Step(3, EnterRefresh)]
    ensures Runs.IsRun(Next, run, steps) && run[0] == STORED && run[3] == BUMPED
  {
    var s5 := STORED.(flight := Some(Flight(1, 1, 0)), nextDone := 2,
                      callers := STORED.callers[1 := Scanning(1, 0, 0)]);
    var s6 := s5.(generation := 1, callers := s5.callers[2 := ForceWaiting(1, 1)]);
    steps := [Step(1, EnterRefresh), Step(2, EnterForce), Step(3, EnterRefresh)];
    run := [STORED, s5, s6, BUMPED];
    assert s6.callers[3 := RefreshWaiting(1, 1, 0)] == BUMPED.callers;
  }

  lemma RunToBumped() returns (run: seq<State>, steps: seq<Step>)
    ensures IsSchedule(run, steps) && run[|steps|] == BUMPED
    ensures |steps| == 7 && steps[5] == Step(2, EnterForce) && steps[6] == Step(3, EnterRefresh)
  {
    var run1, steps1 := RunToStored();
    var run2, steps2 := StoredToBumped();
    Runs.Joined(Next, run1, steps1, run2, steps2);
    run, steps := run1 + run2[1..], steps1 + steps2;
    assert run[7] == run2[3];
  }

  /** So a Refresh called after a mutation boundary may report the state of the world before it. */
  lemma RefreshCanBeStale() returns (run: seq<State>, steps: seq<Step>)
    ensures IsSchedule(run, steps) && |steps| > 6 && steps[5] == Step(2, EnterForce)
    ensures steps[6] == Step(3, EnterRefresh)
    ensures 3 in run[|steps|].callers && run[|steps|].callers[3] == Returned(1, Real(0)) && run[6].generation == 1
  {
    var run1, steps1 := RunToBumped();
    ReachableInv(run1, steps1, 7);
    var run2, steps2 := RefreshStaleOtherwise(BUMPED, 3);
    Runs.Joined(Next, run1, steps1, run2, steps2);
    run, steps := run1 + run2[1..], steps1 + steps2;
    assert run[|steps|] == run2[|steps2|];
    assert Next(run1[5], steps1[5]) == Some(run1[6]);
  }
}
