# Podlaz daemon: a verified model of its protocols

Podlaz keeps one protected VPN session alive across crashes, restarts and network changes. This
project models the six protocols its daemon relies on for that, in Dafny, and proves what each of
them promises over every run:

- `Addresses`, `Envelope`, `EnvelopeWorld`, `EnvelopeTargets`, `EnvelopeHost`: the Privacy Envelope. A
  durable session record and a live nftables table move through old, old ∪ target and target
  compositions. `Host` is the machine; each durable write, each nftables call and each foreign step
  consumes one turn of a script that makes it succeed, fail before or after taking effect, or kills
  the daemon around it, and lets the ruleset be flushed, foreign tables appear and the shutdown thread
  disarm the session just before it. `history` lists every state the machine went through, and
  `Valid()` says that all of them are safe and every step between neighbours is allowed. Because a
  crash may follow any effect, a postcondition that does not depend on success describes every
  intermediate state too.
- `LifecycleLock`: the lifecycle operation lock and the revalidation coordinator, as interleaved
  atomic steps of any number of requests and notifiers, the coordinator loop and the shutdown thread.
- `StartupState`, `StartupDaemon`: boot autostart, session resume, recovery epochs, replay evidence
  and terminal completion, as ordered durable writes with faults and crashes between them.
- `Runner`: the full-tunnel transaction runner with a trace of its successful stages; which stages work
  is an arbitrary function, fixed before the run.
- `Supervisor`: the reconciliation supervisor's decisions, and its deadline and no-progress budget per
  session.
- `StartupScan`: the single-flight startup scan, as interleaved steps of its callers.
- `RollbackMetadata`, `PersistedText`, `Text`, `Counting`, `SortedLists`: incremental rollback
  ownership, the persisted text forms and the list and string operations under them.
- `Intents`: what a session is for, shared by the envelope and the startup model.
- `Runs`: induction over runs of transition systems and over histories.

## What the environment is assumed to do

File writes are atomic. An nftables replacement is one batch: the live table is unchanged or the
new one, and an error may be reported in either case. Verification succeeds only on the exact live
composition, existence is by table name, and `create table` refuses an existing table. Boot ids are
constant within a boot and not reused, a reboot clears the ruleset, session ids are not reused, and
64-bit counters do not wrap (the recovery epoch's own overflow check is modelled). Nobody else
creates a table under a name the current record claims, nor, while a command runs, under any name of
the form Podlaz gives its own tables.

## Where the code does not do what one might expect

Each of these is kept as the code has it, shown by a concrete witness, and bounded by the exact
condition under which the promise does hold.

- internal/daemon/network_session_lifecycle.go:68-74. When superseding the previous outcome fails,
  Connect gives the replacement up without the gate it uses everywhere else. On a retry of an
  unresolved replacement this drops the way back while the widened table is live
  (`EnvelopeTargets.UngatedRestoreLosesLive`). It is safe exactly when every composition the record
  admits to is the previous one (`EnvelopeWorld.GateExact`); `EnvelopeHost.Host.Connect` asks for
  exactly that, on this path only, and `EnvelopeHost.Host.Run` leaves out exactly the calls that miss
  it.
- internal/daemon/privacy_envelope_lifecycle.go:27-83. Arming from an unfinished transition forgets
  the live composition (`EnvelopeTargets.RetargetTwiceLosesLive`); the exact condition is
  `EnvelopeWorld.RetargetKeepsAuthority`, and the armed guard of PrepareReplacement establishes it.
- internal/daemon/lifecycle_operation_lock.go:152-174. A mutation declared between the recheck and
  the snapshot may finish before an automatic admission that used the snapshot
  (`LifecycleLock.AdmissionAfterMutation`); this happens exactly when the snapshot itself reported a
  pending mutation (`LifecycleLock.AdmissionUndisturbed`).
- internal/daemon/boot_autostart_startup.go:112-120. A disconnect that runs to its end while the boot
  attempt is still in progress does not end the attempt: the next startup of the same boot connects
  again (`StartupState.DisconnectUndone`). After a disconnect and a restart startup connects if and
  only if the attempt was still in progress and the uplink is ready
  (`StartupDaemon.Daemon.DisconnectThenRestart`).
- internal/daemon/startup_scan.go:37-65. A Refresh that waited may return the scan stored before the
  bump (`StartupScan.RefreshCanBeStale`). An answer given under the generation the waiter read is sure
  to be of that generation if and only if the scan it waits for was started for it or such a scan is
  already stored (`StartupScan.RefreshFreshIff`); over all the rounds a call may take, only the latter
  helps (`StartupScan.CallFreshIff`).
- internal/daemon/tun_resource_allocation_persistence.go:72-94. The two policy-rule parsers disagree
  on selectors containing the word "lookup" (`PersistedText.ParsersDisagree`,
  `PersistedText.ParsersAgree`).
- internal/daemon/tun_reconciliation_supervisor.go:228-252. Progress keys of different evidence would
  coincide if a probe's name contained a separator (`Supervisor.SeparatorsCollide`). The names the daemon
  gives its probes (internal/daemon/tun_revalidation_dataplane.go:218-266) contain none, and then equal
  keys mean equal evidence, whatever the uplink is called (`Supervisor.KeyTells`).
- internal/daemon/tun_status_helpers.go:263-265. Joined route keys of different routes coincide when
  fields contain a bar, and then a fully recorded transaction fails its own validation
  (`RollbackMetadata.BarsCollide`). Every recorded step list of a plan validates if and only if the
  joined keys of its added routes, and the targets of its added and canonical rules, are distinct and
  complete (`RollbackMetadata.ValidatesIff`).

## Model

| member | source | states |
|---|---|---|
| `Envelope.AcceptsIff` | internal/daemon/privacy_envelope_plan.go:131-184 | read as a first-match list, an envelope accepts a packet if and only if it leaves by loopback or the tunnel, is IPv4 UDP from port 68 to 67, IPv6 UDP from 546 to 547 or ICMPv6 of type 133, 135 or 136, or goes to one of its endpoints or carries one of its marks |
| `Envelope.PlanInjective` | internal/daemon/privacy_envelope_plan.go:131-184 | under one table identity, equal compositions mean equal endpoint and mark lists, so exact verification identifies the authority |
| `Envelope.NormalizeMarks` | internal/daemon/privacy_envelope_plan.go:186-204 | fails exactly on an empty list or a zero mark; otherwise the result is strictly sorted with the same elements |
| `Envelope.NormalizeBootstrap` | internal/daemon/privacy_envelope_plan.go:206-229 | fails exactly on an empty list or text that is neither a dotted quad nor IPv6 text for one; otherwise strictly sorted with exactly the canonical forms as elements |
| `Addresses.ParseCanonical` | internal/daemon/privacy_envelope_plan.go:213-217 | what parsing gives is canonical: it parses to itself, so normalizing twice changes nothing |
| `Addresses.QuadIff` | internal/daemon/privacy_envelope_plan.go:213-217 | text without colons is read if and only if, apart from surrounding spaces, it is four decimal octets with dots between them, and then as itself |
| `Addresses.MappedParses` | internal/daemon/privacy_envelope_plan.go:213-217 | every dotted quad written as IPv4-mapped IPv6 text is read as that quad |
| `SortedLists.SortedUnique` | internal/daemon/privacy_envelope_plan.go:186-229 | a strictly sorted list is determined by its elements, so the normalizers' contracts fix their results |
| `SortedLists.TextLessIff` | internal/daemon/privacy_envelope_plan.go:206-229 | the order endpoints are sorted by is the byte-wise one: up to some place the texts agree, and there the first ends or has the smaller character |
| `EnvelopeWorld.LiveRecoverable` | internal/daemon/network_session_privacy_recovery.go:153-195 | in every state of every history, under a recorded replacement the live table is absent or one of the recovery compositions |
| `EnvelopeWorld.LiveTableNamed` | internal/daemon/privacy_envelope_lifecycle.go:68-80 | write-ahead ownership: whenever a table the daemon put up is live, a validator-accepted record of this boot names it |
| `EnvelopeWorld.PreviousOnlyWhileArming` | internal/daemon/network_session_state.go:566-583 | previous-composition fields occur only while arming inside a replacement |
| `EnvelopeWorld.EnvelopeGoesLast` | internal/daemon/privacy_envelope_lifecycle.go:306-390 | a table of ours disappears only under a converged record in the removing state, after data-plane cleanup was proved |
| `EnvelopeWorld.RecordGoesLast` | internal/daemon/network_session_state.go:363-379 | a record of this boot is removed only when it holds no envelope authority, and then no table of ours is live |
| `EnvelopeWorld.IntentClimbs` | internal/daemon/network_session_teardown.go:109-129 | while a record exists its session id is fixed, its intent only climbs from resume over disconnect to terminal, and its recovery epoch never decreases |
| `EnvelopeWorld.NoLeak` | internal/daemon/privacy_envelope_lifecycle.go:171-212 | from the beginning of a replacement and for as long as it stays recorded, an unflushed envelope is never absent, and apart from loopback, the tunnel, DHCP and the three link-control messages, written out in packet fields, it accepts only the previous peers and the targets of the plans connects were made with since |
| `EnvelopeWorld.RequestedBounded` | internal/daemon/network_session_state.go:126-141 | a recorded replacement keeps its way back, and what it asks for grows from the previous peers by the targets of later plans only |
| `EnvelopeWorld.BarrierStays` | internal/daemon/privacy_envelope_lifecycle.go:149-212 | while a replacement stays recorded and the ruleset is not flushed from outside, the same table stays live with one of the record's compositions |
| `EnvelopeWorld.OldStillAccepted` | internal/daemon/privacy_envelope_lifecycle.go:171-212 | until the record narrows, every packet the previous envelope accepted is accepted by the live one |
| `EnvelopeWorld.RetargetKeepsAuthority` | internal/daemon/privacy_envelope_lifecycle.go:149-292 | retargeting inside a replacement keeps every possibly live composition recoverable if and only if the transition left behind is the previous, the current or the next composition; an armed authority always qualifies |
| `EnvelopeWorld.RestoreKeepsIff` | internal/daemon/network_session_state.go:339-361 | restoring the previous request is safe if and only if the live table is absent or exactly the previous composition |
| `EnvelopeWorld.CommitKeepsIff` | internal/daemon/network_session_state.go:318-337 | committing is safe if and only if the live table is absent or exactly the target composition |
| `EnvelopeWorld.EndsOnRecorded` | internal/daemon/network_session_state.go:318-361 | in every history, when a replacement ends the live envelope is the one the remaining record names or none; given up, that is the previous one |
| `EnvelopeWorld.DriftProtect` | internal/daemon/network_session_state.go:294-316 | a protection write that was safe when it was decided is still safe after any flush, foreign table or disarm in between, and leaves the intent it finds |
| `EnvelopeWorld.GateExact` | internal/daemon/network_session_lifecycle.go:80-113 | judged from the record alone, giving a replacement up is safe for every possible live table if and only if every recorded composition is the previous one; the gate's comparison implies that |
| `EnvelopeTargets.RetargetTwiceLosesLive` | internal/daemon/privacy_envelope_lifecycle.go:27-60 | witness: arming twice without a verified composition in between loses the live one |
| `EnvelopeTargets.UngatedRestoreLosesLive` | internal/daemon/network_session_lifecycle.go:68-74 | witness: the ungated way back leaves a live table no record admits to, also after the previous request is saved again |
| `EnvelopeTargets.ReplacementRecoveryPlans` | internal/daemon/network_session_privacy_recovery.go:153-195 | fails exactly without rollback authority or on an invalid authority; otherwise lists each composition of the replacement once and nothing else |
| `EnvelopeTargets.UnionOf` | internal/daemon/privacy_envelope_lifecycle.go:125-147 | the widened authority is acceptable, carries the current composition as its transition, and admits exactly old peers and target; for a plan on the same tunnel it exists if and only if the plan fits |
| `EnvelopeTargets.TargetOf` | internal/daemon/privacy_envelope_lifecycle.go:85-124 | the narrowed authority is acceptable, carries the current composition as its transition, and admits exactly the target; it exists for every fitting plan, and an authority that already is the one asked for is recognised as such |
| `EnvelopeTargets.CandidatesDiffer` | internal/daemon/privacy_envelope_plan.go:101-106 | the sixteen candidate table names of a session are sixteen different names |
| `EnvelopeHost.Host.AllocateTable` | internal/daemon/privacy_envelope_plan.go:29-80 | returns a candidate name that is not live, all earlier of the sixteen having been taken; without faults it fails exactly when all sixteen are taken |
| `EnvelopeHost.Host.SwapProtection` | internal/daemon/privacy_envelope_lifecycle.go:149-169 | durable intent before the live swap; whatever fails or happens meanwhile, the record is the old or the new authority; success means the new composition is live |
| `EnvelopeHost.Host.Arm` | internal/daemon/privacy_envelope_lifecycle.go:27-124 | keeps the history safe under every fault; success means the record authorizes exactly the plan's peers behind its tunnel; without faults it succeeds, with the composition live, from a steady replacement, on an envelope that already is the one asked for, and without an envelope for every valid interface, nonzero mark or readable server and free table name |
| `EnvelopeHost.Host.PrepareReplacement` | internal/daemon/privacy_envelope_lifecycle.go:171-212 | under every fault a wide record stays wide; success means armed on exactly old and target peers; without faults it succeeds on a steady replacement and the union is live and verified, and a replacement that is not armed or does not fit the plan is refused with nothing changed |
| `EnvelopeHost.Host.Verify` | internal/daemon/privacy_envelope_lifecycle.go:214-246 | succeeds only if the live table was exactly the persisted composition, which is then armed without a transition and still live unless flushed since; touches no table; without faults it succeeds whenever that composition is live |
| `EnvelopeHost.Host.MatchCandidates` | internal/daemon/network_session_privacy_recovery.go:126-138 | never finds two matching candidates, even if tables are flushed between the tries; without faults it finds one exactly when one is live |
| `EnvelopeHost.Host.ReconcileReplacement` | internal/daemon/network_session_privacy_recovery.go:95-151 | success means the record is the restored one and the live table the previous composition, unless flushed since; without faults it always succeeds; in between the record is one or the other |
| `EnvelopeHost.Host.ReconcileProtection` | internal/daemon/network_session_privacy_recovery.go:30-93 | success means no replacement is open and the live table is the persisted composition, unless flushed since; without faults it succeeds from every resumable record and leaves exactly the previous record of a replacement, or the same record armed |
| `EnvelopeHost.Host.RecoverAfterCrashes` | internal/daemon/network_session_privacy_recovery.go:30-151 | any number of recoveries cut short or interfered with anywhere, followed by one that is not, ends with the previous composition live, the replacement cleared and the previous request restored, if and only if nobody asked for a disconnect meanwhile |
| `EnvelopeHost.Host.CleanupAfterFailedDataPlane` | internal/daemon/privacy_envelope_lifecycle.go:254-270 | success means no replacement is open; without faults it always succeeds |
| `EnvelopeHost.Host.RemoveAfterDataPlaneCleanup` | internal/daemon/privacy_envelope_lifecycle.go:312-390 | given proved data-plane cleanup, success means no envelope authority is left; the session keeps its identity and epoch; without faults it always succeeds |
| `EnvelopeHost.Host.BeginOrResume` | internal/daemon/network_session_state.go:102-171 | an open replacement is left untouched; a new one starts unmoved, wide, with its way back recorded; without faults a complete request is taken if and only if there is no session of this boot, or it is to be resumed and the request is the one being replaced by, replaces a protected tunnel by a tunnel, has the same mode and profile, or meets no envelope; the record left is exactly the new session, the replacement with its way back or the new request, and a refused request changes nothing |
| `EnvelopeHost.Host.CommitReplacement` | internal/daemon/network_session_state.go:318-337 | ends a replacement whose armed target is live, changing no table and no protection: the new request stays, with its handoff blocked; without faults a verified target is always committed |
| `EnvelopeHost.Host.RestoreReplacement` | internal/daemon/network_session_state.go:339-361 | the record is the old or the restored one, up to a disconnect asked for meanwhile; no table changes; without faults it is exactly the restored one |
| `EnvelopeHost.Host.RaiseIntent` | internal/daemon/network_session_continuation.go:116-148 | success means the intent is the one asked for, or terminal if it already was; without success it is that one or what it was; nothing else in the record changes |
| `EnvelopeHost.Host.RemoveRecord` | internal/daemon/network_session_state.go:363-379 | refuses while envelope authority exists and then changes nothing |
| `EnvelopeHost.Host.BeginRecoveryAttempt` | internal/daemon/network_session_state.go:263-281 | success means the epoch grew by one; nothing else in the record changes; without faults it succeeds if and only if a session exists whose epoch is not the last one |
| `EnvelopeHost.Host.ConnectTun` | internal/daemon/tun_connect_lifecycle.go:120-285 | under every fault and interference the history stays safe; asks for its two plans only; success means the replacement is committed and the live envelope is exactly the verified target, unless flushed since; without faults a steady replacement, a first connect and a kept envelope succeed, and a replacement its first plan does not fit is refused with record and tables unchanged |
| `EnvelopeHost.Host.ReplaceDataPlane` | internal/daemon/tun_connect_lifecycle.go:147-170 | a refused prepared replacement without an incomplete cleanup leaves no replacement open |
| `EnvelopeHost.Host.Gate` | internal/daemon/network_session_lifecycle.go:80-113 | opens only, and without faults if and only if, cleanup was complete, rollback did not fail, a session exists, and either its replacement was not started and never moved, or it carries none and has no envelope or the mode and profile of the previous request |
| `EnvelopeHost.Host.Connect` | internal/daemon/network_session_lifecycle.go:40-126 | under every fault and interference the history stays safe, so a failed replacement is given up only with the previous envelope live or none; only the given plans are ever asked for; success means the verified target envelope; without faults every admissible request succeeds that meets no envelope and a valid plan, replaces a verified envelope by fitting plans, or keeps the one that is up, and afterwards exactly the plan's peers are live behind its tunnel; a replacement its first plan does not fit ends with the previous session connected again; after a declared stop nothing happens |
| `EnvelopeHost.Host.Withdraw` | internal/daemon/network_session_lifecycle.go:80-123 | without faults a failed attempt is given back if and only if the gate's condition holds and the previous request is admissible again; a connectable previous session is then connected; a failed first connect leaves no record unless an envelope remains |
| `EnvelopeHost.Host.RestorePrevious` | internal/daemon/network_session_lifecycle.go:239-265 | without faults the replacement is given up and the previous request is recorded exactly as a new request would be; without a previous request the record goes if and only if it has no envelope |
| `EnvelopeHost.Host.ResumeSession` | internal/daemon/network_session_lifecycle.go:348-535 | success means the verified target envelope; without faults every resumable session, also one whose replacement was interrupted, is connected again under a new epoch if the plans suit the record reconciliation leaves |
| `EnvelopeHost.Host.Teardown` | internal/daemon/network_session_teardown.go:26-129 | an explicit teardown records disconnect unless the session was terminal, a terminal one terminal, a restart nothing; the data plane is cleaned only under that intent; if the record went, the remaining network was verified after the last change, the data plane is clean and no table of ours is live; without faults it completes, a restart if and only if the session is to be resumed |
| `EnvelopeHost.Host.ContinueTeardown` | internal/daemon/network_session_terminal_recovery.go:41-121 | the same for a persisted teardown; without faults it completes every session whose intent is not resume |
| `EnvelopeHost.Host.Run` | internal/daemon/network_session_lifecycle.go:348-535 | any sequence of connects, teardowns, resumes, disarms, crashes, restarts and reboots, with flushes, foreign tables and stop declarations between any two steps, only extends a safe history, and only the commands' own plans are ever asked for |
| `LifecycleLock.StepKeepsInv` | internal/daemon/lifecycle_operation_lock.go:100-305 | every interleaved step keeps the token, counter, fence, revision and wake invariants |
| `LifecycleLock.TokenExclusive` | internal/daemon/lifecycle_operation_lock.go:100-305 | in every schedule the token is free exactly when nobody holds it, no two threads hold it, and the idle channel is closed exactly when nothing is pending |
| `LifecycleLock.IdleWaitersWake` | internal/daemon/lifecycle_operation_lock.go:221-242 | whenever nothing is pending, every thread blocked in waitMutationIdle can proceed |
| `LifecycleLock.NoLostWork` | internal/daemon/tun_revalidation_coordinator.go:128-145 | before shutdown, whenever the loop idles on pending work a wake is buffered or owed, and pending work carries the newest revision |
| `LifecycleLock.WorkConcludedOrPending` | internal/daemon/tun_revalidation_coordinator.go:163-247 | before shutdown the loop lets go of work only because a mutation was admitted, a completed observation asked for none, or the work is pending again under the newest revision with a wake on the way; a probe cut short is always requeued with an undiminished trigger |
| `LifecycleLock.LostClaimIsOwed` | internal/daemon/tun_revalidation_coordinator.go:221-247 | the requeue after a lost admission needs no signal: the mutation that won has delivered or owes one |
| `LifecycleLock.AdmissionFresh` | internal/daemon/lifecycle_operation_lock.go:152-174 | between its snapshot and its admission no mutation was declared and nothing newer published; exactly the mutations pending at the snapshot finished meanwhile |
| `LifecycleLock.AdmissionUndisturbed` | internal/daemon/lifecycle_operation_lock.go:134-174 | a request finishes between snapshot and admission if and only if the snapshot reported a pending one; otherwise no request moves at all |
| `LifecycleLock.AdmissionAfterMutation` | internal/daemon/lifecycle_operation_lock.go:152-174 | witness schedule of an admission whose evidence a finished mutation has overtaken |
| `LifecycleLock.ShutdownIsLast` | internal/daemon/server.go:78-140 | after the fence and a successful drain nothing is registered, no request moves and no automatic mutation is admitted |
| `LifecycleLock.Merge` | internal/daemon/tun_revalidation_coordinator.go:147-161 | merging never gives a weaker trigger than either argument and invents none |
| `StartupState.AtMostOneAttempt` | internal/daemon/boot_autostart_store.go:163-201 | over any crashes and restarts a boot admits at most one attempt |
| `StartupState.AttemptFinal` | internal/daemon/boot_autostart_store.go:247-281 | within a boot the attempt keeps its configuration, and a final state never changes |
| `StartupState.DoomedNeverConnects` | internal/daemon/boot_autostart_startup.go:50-316 | once teardown is durable for the attempt's session, or the attempt is over and its session gone, no startup of that boot connects over any stretch in which no request is being served, whatever was asked for earlier |
| `StartupState.DisconnectUndone` | internal/daemon/boot_autostart_startup.go:112-120 | wherever an attempt is in progress, a disconnect that is over leaves a state from which the next startup of the boot connects again |
| `StartupState.AttemptOpens` | internal/daemon/boot_autostart_startup.go:197-232 | witness: such a state is reached from an empty disk |
| `StartupState.TerminalOnlyJustified` | internal/daemon/network_session_terminal_transition.go:16-62 | in every history a session goes from resume straight to terminal only while it is protected with cleanup-safe evidence of a replay of its current epoch that took place, or while the boot attempt is still in progress |
| `StartupState.EpochsStrict` | internal/daemon/network_session_lifecycle.go:465-480 | admitted replays of one session carry strictly increasing epochs |
| `StartupState.IncompleteNeverReplayed` | internal/daemon/network_session_replay_evidence.go:137-167 | a session whose current epoch has an incomplete replay on record is never replayed again |
| `StartupDaemon.Daemon.TransitionReplayToTerminal` | internal/daemon/network_session_terminal_transition.go:16-47 | the record changes only under cleanup-safe evidence and a proof of the current session and epoch, from protected resume, and then only its intent |
| `StartupDaemon.Daemon.SaveLatestBlocker` | internal/daemon/network_session_resume_diagnostic.go:117-131 | a later blocker leaves replay evidence as it was |
| `StartupDaemon.Daemon.AdmitReplay` | internal/daemon/network_session_lifecycle.go:458-476 | refuses on recorded incomplete evidence of the current epoch; an admitted epoch is new: one larger, without evidence and never replayed before; without faults it is refused otherwise only at the last epoch |
| `StartupDaemon.Daemon.ReplaySession` | internal/daemon/network_session_lifecycle.go:425-497 | replays only what evidence allows; terminal convergence means the intent left resume; without faults the result, the session, the replays and the connects are determined for every disk: terminal evidence ends the session if it proves a safe cleanup, incomplete evidence blocks, otherwise one replay under the next epoch decides |
| `StartupDaemon.Daemon.Admit` | internal/daemon/boot_autostart_store.go:163-201 | an existing attempt is left alone; success means a fresh attempt pinned to the manifest; a manifest is admitted only if it was configured in another boot, and without faults if and only if that is so |
| `StartupDaemon.Daemon.Complete` | internal/daemon/boot_autostart_store.go:247-281 | success means exactly the asked state; a final state is never changed; nothing else is touched |
| `StartupDaemon.Daemon.ContinueAttempt` | internal/daemon/boot_autostart_startup.go:197-290 | at most one Connect; success means the attempt succeeded and its session with the pinned configuration is in force; otherwise an ended attempt names its reason; without faults the uplink and then the one Connect decide |
| `StartupDaemon.Daemon.RunStartup` | internal/daemon/boot_autostart_startup.go:50-144 | keeps the history sound; a doomed attempt is never connected; without faults the result and the durable state are determined for every disk: without session and attempt a manifest of another boot is admitted once and connected if the uplink is ready and Connect succeeds, and a manifest of this boot or none leaves everything as it was; an attempt in progress is continued, a session is resumed or its teardown finished |
| `StartupDaemon.Daemon.DisconnectThenRestart` | internal/daemon/boot_autostart_startup.go:50-144 | after a completed disconnect and a faultless restart, startup connects if and only if the boot attempt was still in progress and the uplink is ready |
| `StartupDaemon.Daemon.Run` | internal/daemon/boot_autostart_startup.go:50-316 | any sequence of startups, crashes, reboots, configurations and user requests only extends a sound history |
| `Runner.FullTunnelRunner.Run` | internal/daemon/tun_full_tunnel_runner.go:69-193 | for every pattern of failures: active if and only if a required envelope is available and every stage passes, and then the trace is exactly the list of stages from preflight over core start, core verification and address binding to commit; otherwise the first failing stage names the phase, the trace is exactly the earlier stages followed by undoing up to its own first failure, and the status says whether all was undone |
| `Runner.OneOutcome` | internal/daemon/tun_full_tunnel_runner.go:69-269 | which stages fail determines trace, phase and status of a stopped run |
| `Runner.CommittedBehindEnvelope` | internal/daemon/tun_full_tunnel_runner.go:155-192 | with a required envelope, a commit directly follows arming, exact verification and a second connectivity check, in that order |
| `Runner.RolledBackInOrder` | internal/daemon/tun_transaction_rollback.go:70-100 | a finished rollback is host, then core, then configuration |
| `Runner.EnvelopeCleanedLast` | internal/daemon/tun_full_tunnel_runner.go:254-269 | the envelope is cleaned only directly after a complete data-plane rollback |
| `Supervisor.TunReconciliationSupervisor.RunRound` | internal/daemon/tun_reconciliation_supervisor.go:81-169 | verified if and only if the session is named and not blocked, nothing is hard unsafe, all seven proofs hold, no reconcile is asked and two successful probes have different nonempty provider names; equally exact conditions and classifications for reconcile, retry, terminal and blocked; the session's cycle is forgotten, kept or advanced exactly, and no other session's changes |
| `Supervisor.StepDecides` | internal/daemon/tun_reconciliation_supervisor.go:81-138 | the transition function the run results are about decides by the same conditions on round, time and stored cycle |
| `Supervisor.StepKeeps` | internal/daemon/tun_reconciliation_supervisor.go:116-193 | a cycle goes with verification, the end or disqualification; otherwise its deadline is fixed when it opens, equal keys are counted, and once exhausted it stays as it is |
| `Supervisor.TwoProviders` | internal/daemon/tun_reconciliation_supervisor.go:194-216 | counting providers reaches two if and only if two probes with that result have different nonempty trimmed provider names |
| `Supervisor.GoingBeforeDeadline` | internal/daemon/tun_reconciliation_supervisor.go:116-169 | in every run over many sessions, each retry or reconcile falls strictly within the budget of the round that opened its cycle |
| `Supervisor.NoProgressBounded` | internal/daemon/tun_reconciliation_supervisor.go:140-169 | at most the budgeted number of consecutive reconciles of a session share one progress key |
| `Supervisor.ExhaustedUntilCleared` | internal/daemon/tun_reconciliation_supervisor.go:116-153 | an exhausted cycle that is not cleared never keeps its session going |
| `Supervisor.MutationNeedsEvidence` | internal/daemon/tun_reconciliation_supervisor.go:81-106 | a mutating decision needs a named, unblocked session and either hard-unsafe state or complete conclusive evidence |
| `Supervisor.NonInterference` | internal/daemon/tun_reconciliation_supervisor.go:81-193 | a session's decisions and cycle are those of the run of its own rounds alone |
| `Supervisor.KeyIgnoresProbeOrder` | internal/daemon/tun_reconciliation_supervisor.go:228-252 | reporting the same probes in another order is no progress |
| `Supervisor.KeyTells` | internal/daemon/tun_reconciliation_supervisor.go:228-252 | as long as no probe name contains a separator of the key, and for every uplink text, two rounds have the same key if and only if they report the same uplink, proofs and multiset of probes |
| `Supervisor.ProbeTextTells` | internal/daemon/tun_reconciliation_supervisor.go:229-232 | such probes print alike if and only if trimmed provider, trimmed group and result agree |
| `Supervisor.SeparatorsCollide` | internal/daemon/tun_reconciliation_supervisor.go:229-232 | witness: two probes of different providers and groups that print alike because a name contains a slash |
| `StartupScan.SingleFlight` | internal/daemon/startup_scan.go:98-139 | at most one scan runs at a time |
| `StartupScan.WaitersServed` | internal/daemon/startup_scan.go:37-139 | when no scan is in flight, every waiting caller can proceed |
| `StartupScan.PublishedAfterBump` | internal/daemon/startup_scan.go:70-125 | after a ForceRefresh bump every scan published later began after it or is an incomplete marker |
| `StartupScan.ForceReturnsFresh` | internal/daemon/startup_scan.go:70-112 | ForceRefresh returns a scan begun after its own bump or an incomplete marker |
| `StartupScan.RefreshFreshIff` | internal/daemon/startup_scan.go:37-65 | in every reachable state, an answer a waiting Refresh gives under the generation it read is sure to be of that generation if and only if it will not answer under it, the awaited scan was started for it, or a scan of it is stored |
| `StartupScan.CallFreshIff` | internal/daemon/startup_scan.go:37-65 | over every round the call may still take, its answer is sure to be of that generation if and only if a scan of it is already stored |
| `StartupScan.RefreshStaleOtherwise` | internal/daemon/startup_scan.go:37-65 | from every other state, whatever stage the scan in flight is in, some schedule makes the waiter return the stale stored scan |
| `StartupScan.RefreshCanBeStale` | internal/daemon/startup_scan.go:37-65 | witness schedule from the daemon's start |
| `RollbackMetadata.Transaction.PersistAppliedStep` | internal/daemon/tun_transaction.go:196-211 | an unowned or known step changes nothing; a new owned one is recorded with exactly its own metadata and stored unless the save is refused |
| `RollbackMetadata.Transaction.PersistAll` | internal/daemon/tun_transaction.go:129-165 | persisting step by step until one is not owned or cannot be saved, the record in memory and the stored one each carry exactly the batch metadata of their own first occurrences, and the stored one is at most the last step behind |
| `RollbackMetadata.GrowsByOne` | internal/daemon/tun_transaction_rollback.go:246-288 | batch metadata of a list with one new step is the list's metadata merged with the step's own |
| `RollbackMetadata.UndoesExactly` | internal/daemon/tun_transaction_metadata.go:74-103 | whatever was applied, the device, address, DNS and firewall lists hold the plan's resource of that kind exactly if rollback owns it, it is named and the step of its kind, owner and target was applied; a route or rule is listed if and only if the plan adds it and its step was applied |
| `RollbackMetadata.OwnedIff` | internal/daemon/tun_transaction_rollback.go:290-303 | a step is ours if and only if it names a resource of the plan by kind, owner and target |
| `RollbackMetadata.EveryPrefixValidates` | internal/daemon/tun_status_helpers.go:185-235 | after any list of described steps of a well-formed plan, every route and policy-rule entry passes validation |
| `RollbackMetadata.ValidatesIff` | internal/daemon/tun_status_helpers.go:185-269 | every list of described steps validates if and only if the plan is well-formed: added routes complete with pairwise distinct joined keys, added rules complete and canonical with distinct targets |
| `RollbackMetadata.TargetsSuffice` | internal/daemon/tun_status_helpers.go:263-269 | where no table or destination contains a bar, distinct targets make the joined keys distinct |
| `Counting.GatheredCount` | internal/daemon/tun_transaction_rollback.go:246-288 | gathering by distinct step targets takes every matching resource exactly once |
| `RollbackMetadata.BarsCollide` | internal/daemon/tun_status_helpers.go:263-265 | witness: a plan of two complete routes with distinct targets whose fully recorded transaction fails validation |
| `PersistedText.PersistedInverts` | internal/daemon/tun_revalidation_plan.go:183-207 | a printable rule is read back if and only if its selector has a direction and an operand, and never read as another rule |
| `PersistedText.PlannedInverts` | internal/daemon/tun_resource_allocation_persistence.go:72-94 | a printable rule is read back if and only if its selector lacks the word lookup, and never read as another rule |
| `PersistedText.ParsersAgree` | internal/daemon/tun_status_helpers.go:306-308 | on every printable rule, both parsers invert the printer exactly on directed selectors without the word lookup |
| `PersistedText.ParsersDisagree` | internal/daemon/tun_resource_allocation_persistence.go:80-90 | witness: a rule revalidation accepts and allocation recovery does not |
| `PersistedText.SelectorRoundTrip` | internal/daemon/tun_transaction_metadata.go:142-156 | a rollback entry prints the selector it was made from if and only if that selector is canonical |
| `PersistedText.RollbackTargetMatches` | internal/daemon/tun_status_helpers.go:271-286 | a rollback entry has the target of the step it undoes if and only if the rule's selector is canonical |
| `PersistedText.FirewallInverts` | internal/daemon/tun_revalidation_plan.go:277-310 | a printed firewall rule is read back if and only if its verdict is accept, reject or drop and its ownership is the prefix and a nonempty key; its rollback key is then family, table, chain and that key with slashes between |
| `Text.TrimCuts` | internal/daemon/tun_reconciliation_supervisor.go:229-232 | trimming takes white space away from both ends and nothing else, so the trimmed names probes are told apart by are the reported ones |
| `Text.FieldsOfWords` | internal/daemon/tun_revalidation_plan.go:183-193 | splitting joined words gives the words back |
| `Text.AtoiDecimal` | internal/daemon/tun_revalidation_plan.go:188-191 | a printed priority parses back |

## Left out

- HTTP handlers, sockets, polkit, JSON encoding, file permissions, size limits and logging: durable stores are atomic optional records.
- nft, ip, resolvectl, D-Bus and netlink traffic, connectivity and diagnostic probes: foreign steps with arbitrary results under the assumptions above; rule text is represented by structured matches.
- The e2e hooks, `SetIntent` and `beginMutation`: test seams and unguarded setters without a caller in the modelled code.
- Legacy continuation and package-upgrade migration: no legacy marker is assumed.
- Non-ASCII white space: trimming and splitting know ASCII white space only.
- EnvelopeHost.Host.Arm: inside a replacement it asks that the transition left behind be a composition the record keeps; `EnvelopeTargets.RetargetTwiceLosesLive` shows what the remaining calls lose, and no caller makes one.
- EnvelopeHost.Host.SwapProtection: asks that the new authority may be written safely, which `EnvelopeWorld.RetargetKeepsAuthority` decides exactly.
- EnvelopeHost.Host.CommitReplacement: stated for the live tables on which committing is safe, which `EnvelopeWorld.CommitKeepsIff` determines exactly.
- EnvelopeHost.Host.RestoreReplacement: stated for the live tables on which giving up is safe, which `EnvelopeWorld.RestoreKeepsIff` determines exactly.
- EnvelopeHost.Host.Connect: asks, on the ungated path only, for the exact condition of `EnvelopeWorld.GateExact`; leaves out the idempotent shortcut for an already verified identical session, which changes nothing.
- EnvelopeHost.Host.Run: leaves out the connects that would give a replacement up ungated against that condition.
- EnvelopeHost.Host.ConnectTun: the planner, preflight checks and the source-generation proof are foreign steps that may refuse; the transaction itself is `Runner`.
- LifecycleLock.StepKeepsInv: the lock and the coordinator are values in a transition system rather than objects, because the subject is their interleaving; aliasing of channels is represented by channel numbers.
- LifecycleLock.AdmissionFresh: the disposition's own publication revision is taken to be the probe's, as the probe sets it.
- StartupDaemon.Daemon.RunStartup: a session's protection is one flag here; the envelope itself is `EnvelopeHost`. Product terminal reasons are a foreign step.
- StartupDaemon.Daemon.Run: leaves out terminal teardown decided by the supervisor of a running daemon, which is `EnvelopeHost.Host.Teardown`.
- StartupScan.SingleFlight: callers are values in a transition system for the same reason as the lock.
- Supervisor.KeyIgnoresProbeOrder: the uplink fingerprint enters the progress key as one rendered text.
- RollbackMetadata.ValidatesIff: device, address, DNS and firewall entries are recorded by name; their single-entry validation is not modelled.
- Runner.FullTunnelRunner.Run: failure texts and diagnostics collection; the split of network failures into apply and verify phases.
- The API field validators, status rendering, doctor reports and the client package, which would only add easy members.
