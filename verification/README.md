# datasource_kit: models and proofs of its protocols

A Dafny model of the parts of `datasource_kit` whose correctness rests on ordering: the clearance
of a legacy process tombstone, the first-launch fence with its ACK gate and the desired-state
reconciler, the at-least-once worker loop over its planners and an idempotent store, and the loop
and arithmetic cores (continuous host, token bucket, backoff and retry, ingest accounting, day
windows). `dafny verify dfyconfig.toml` checks everything.

## How it is laid out

| files | what they hold |
|---|---|
| `Wrappers`, `Text`, `Numbers` | optional values, stripped text, arithmetic shared by several modules |
| `FileSystem`, `Clearance` | names, inodes, link counts, audit records; the clearance as a machine of single system calls |
| `ClearanceSafety`, `ClearanceSteps` | the inductive invariant and its preservation, step by step |
| `ClearanceProgress`, `ClearanceRuns` | which request wins, the measure of a run, the outcome of an undisturbed run, idempotence |
| `ClearanceSystem`, `ClearanceWedge` | any number of callers, the lock, death at any call; the theorems; a concrete request that cannot finish |
| `ClearanceGate`, `AuditText` | what a clearance insists on, every condition written out, over all runs and gate by gate in any file system; the UTF-8 and JSON texts behind the sizes |
| `ClearanceProgram`, `AuditIo` | the clearance as a class that changes the directory in place; the byte loops |
| `Gate`, `Launch` | the child's gate; state.json, pid.json, the reconcile pass, the children and the operator as one machine |
| `LaunchSafety`, `LaunchTheorems`, `LaunchClearance`, `LaunchStops` | the invariant; provenance before exec; exactly when a clearance is safe; exactly when a stop without the lock is as good as one step |
| `Generations`, `Heartbeats` | the generation counter, stamps and fencing; erasure of heartbeats |
| `LaunchRules` | rules of single steps and runs: who removes pid.json, whose handles are held, what is read back |
| `Pass`, `PassOutcomes` | a reconcile pass among everything around it; what it decides, reports and saves |
| `SupervisorProgram` | the reconciler and the launch as a class, proved equal to a run of the machine whatever is done around a pass and wherever it breaks off |
| `Store`, `Planner`, `Worker` | the insertion-ordered store, planners and fetch intent, one turn of the worker loop with faults |
| `WorkerFailures` | what one run's turns say by themselves: which fail, what they leave, where the run ends |
| `WorkerWalk`, `WorkerTheorems`, `WorkerReplay` | exactly-once effect, the stuttering walk, termination, and exactly which sources are safe |
| `WorkerProgram` | the host's loop over a checkpoint cell and a store |
| `Continuous`, `ContinuousTrace`, `ContinuousProgram` | the continuous loop, its trace against the consumer's turns, and the host as the loop it is |
| `RateLimit`, `Backoff`, `Window`, `Ingest` | the arithmetic cores and the ingest loop |

A digest and an operation id are injective datatypes; uuid4 tokens and quarantine names are fresh
numbers; times, rates and delays are reals. A crash is the death of a process, with the file
system surviving and the locks released. Where a class models a program, its methods are proved
against the machine (`Exec`, `Run`, `Loop`, `Process`), and the properties are lemmas about it.

## What came out

Where a property one would expect does not hold of the code, the model keeps the code's behaviour
and the exact condition is proved.

* A clearance cannot always be completed. The completion record is two bytes longer than the
  intent (`complete` against `intent`), and both are held to 8192 bytes. An intent of 8191 or 8192
  bytes is published and the tombstone retired, and then no rerun can ever publish the completion
  (`ClearanceWedge.LongRequestWedges`). Recovery converges exactly when the completion fits
  (`ClearanceSystem.RecoveryConverges`).
* A generation stamp can be used twice, although `merge_heartbeat` promises that a zombie of a
  previous generation can never overwrite current state. If a supervisor dies between stamping
  pid.json and saving state.json, the launch after the next clearance repeats the stamp, and a
  heartbeat of the launch cleared away then passes the fence: such a run exists from every unit
  never launched, with every clearance taken over a gone workload (`Generations.ZombieHeartbeat`).
  An operator can see it coming: it happens exactly when, at the clearance, the tombstone's
  generation is ahead of the saved one (`Generations.StampRepeatsIff`, `Generations.ZombieAcceptedIff`).
* "At most one consumer executed between two clearances" does not hold without a condition: a child
  cleared away with the whole acknowledgement still unread executes its consumer later, beside that
  of the next launch. After any history the property holds, from a clearance to the next, exactly
  when no such pending child of any launch is there at the clearance, however many children that
  already run are cleared away (`LaunchClearance.OneExecIff`,
  `LaunchTheorems.OneExecBetweenClearances`).
* A clearance is safe, in that no two consumers are ever alive together before the next one, exactly
  when no child of any launch is running the consumer or pending
  (`LaunchClearance.ClearanceSafeIff`). Every unit never launched has a run to a clearance after
  which both this and the property before fail (`LaunchClearance.UnsafeClearance`).
* `stop` rewrites pid.json without the unit lock. When its write comes late it can bring back a
  cleared tombstone, overwrite that of a later launch, or take back the record of a pid; it is as
  good as one step exactly when no clearance and no record came between its read and its write
  (`LaunchStops.StraddlingStopIff`). Runs in which it does each of these exist from every unit
  never launched (`LaunchStops.StopTakesBackRecord`, `LaunchStops.StopBringsBackTombstone`).
* The worker's effect is exactly once for every schedule in which no save fails after having
  become durable. With such saves (`FileCheckpointStore.save` can raise while removing its
  temporary file, after the replace) it holds exactly when every record of a unit is the last of
  its batch for its id or its id comes again in a later unit, or the first failure ends the run, or
  the run has no normal end because a resume planner idles when exhausted or a record has no id
  (`WorkerReplay.ExactlyOnceIff`).
* The outcome vocabulary of `ReconcileOutcome` lists "stopped", but no pass reports it, and a pass
  also reports "unknown" as the actual state; the model follows the code.
* Under the default ingest profile the retry never waits, because the default cap is zero
  (`Backoff.ZeroCapNeverWaits`).

## Model

| member | source | states |
|---|---|---|
| ClearanceSteps.StepGood | src/datasource_kit/fleet/process.py:849-1001 | every single step of a clearance, with or without an I/O error, keeps the whole ledger of tombstone, intents, quarantines and completions consistent with the caller's own progress |
| ClearanceSystem.ReachableSound | src/datasource_kit/fleet/process.py:774-1028 | with any number of callers, requests, deaths and retries, every reachable directory satisfies that invariant |
| ClearanceSystem.TombstoneNeverLost | src/datasource_kit/fleet/process.py:912-982 | the tombstone's bytes never change; it is named by pid.json, by exactly one quarantine carrying its digest, or by both; its link count is 1 or 2 |
| ClearanceSystem.AtMostOneCompletes | src/datasource_kit/fleet/process.py:913-1001 | two completions published for one tombstone are the same request's |
| ClearanceSystem.AnswersAgree | src/datasource_kit/fleet/process.py:910-1001 | two calls that returned a path were calls of the same request |
| ClearanceSystem.CompletionIsTrue | src/datasource_kit/fleet/process.py:887-1001 | a published completion has its matching intent with the same fields, pid.json is gone, and the quarantine it names is the tombstone with one link, the requested digest, unit and generation, and no token |
| ClearanceGate.OnlyMatchingRequests | src/datasource_kit/fleet/process.py:787-943 | in every reachable system a published record, an answer or a pid.json gone is for a request with the assertion made, an operator of at most 256 and a ticket of at most 512 bytes, neither blank, and a tombstone that is an object without a token, of that unit, generation and digest, of at most 16 MiB; every caller past its argument check has such arguments |
| ClearanceGate.UnclearableUntouched | src/datasource_kit/fleet/process.py:938-943 | over a tombstone with a token, or one that is malformed, lacks its unit or generation, or is too long, any number of calls and crashes leave every name but temporaries as it was and answer nobody |
| ClearanceGate.RefusedCall | src/datasource_kit/fleet/process.py:787-943 | a single call that is not properly asked or does not match the tombstone leaves every name but temporaries as it was and returns no path, wherever it dies |
| ClearanceGate.RecoversExactly | src/datasource_kit/fleet/process.py:634-638 | after any crashes of one request, an undisturbed rerun returns if and only if those conditions hold and the JSON line of the completion has at most 8192 bytes |
| ClearanceGate.AuthorizeExactly | src/datasource_kit/fleet/process.py:912-959 | in any file system the checks on pid.json pass exactly for a matching tombstone to which nothing leads but pid.json and, with the intent on disk, its own quarantine; without pid.json exactly for a published intent whose quarantine is the requested file |
| ClearanceGate.RetiresExactly | src/datasource_kit/fleet/process.py:959-973 | in any file system pid.json goes away only in the retiring step, and there exactly when it and the quarantine alone name the inode that was checked |
| ClearanceGate.ReadsIntentExactly | src/datasource_kit/fleet/process.py:867-886 | in any file system a published intent counts exactly when it is whole, within 8192 bytes, and this request's with a quarantine name |
| ClearanceGate.ReadsCompletionExactly | src/datasource_kit/fleet/process.py:887-910 | a published completion ends the call exactly when it is the intent's, pid.json is gone and the quarantine is in order |
| ClearanceGate.NeverReplaces | src/datasource_kit/fleet/process.py:652-656 | in any file system no step points an existing name other than a temporary at another inode |
| ClearanceGate.NoLeftovers | src/datasource_kit/fleet/process.py:640-665 | a call that ends, by returning or by an error anywhere, leaves no temporary that was not there before, unless the unlink of its own failed |
| AuditText.LineLength | src/datasource_kit/fleet/process.py:634-638 | the size of a record is the length of its compact, sorted, ASCII-escaped JSON line |
| AuditText.Utf8Length | src/datasource_kit/fleet/process.py:793 | the size of an argument is the length of its UTF-8 encoding |
| ClearanceSystem.AuditAllOrNothing | src/datasource_kit/fleet/process.py:634-684 | a final audit name holds a whole record of its own operation within the limit, alone on its inode or with one leftover temporary |
| ClearanceSystem.RecoveryConverges | src/datasource_kit/fleet/process.py:859-1001 | after any crashes of one request, an undisturbed rerun returns the completion if and only if the arguments are valid, the tombstone is the requested one and the completion record fits |
| ClearanceSystem.LosersChangeNothing | src/datasource_kit/fleet/process.py:913-959 | a call that cannot win, wherever it dies, leaves every name but temporaries as it was and returns no path |
| ClearanceRuns.ClearanceOutcome | src/datasource_kit/fleet/process.py:774-1001 | an undisturbed call from any sound directory returns exactly when it is valid, may win and its completion fits; otherwise it fails, a loser changing nothing and a winner left without its completion |
| ClearanceRuns.CompletionIsIdempotent | src/datasource_kit/fleet/process.py:887-910 | once a call returned, rerunning the request returns the same path and leaves the file system unchanged |
| ClearanceProgress.RankDecreases | src/datasource_kit/fleet/process.py:849-1001 | every step without an error brings a call strictly closer to its end, so a bounded number of calls suffices |
| ClearanceProgress.WinnerStable | src/datasource_kit/fleet/process.py:913-972 | whether a request may win does not change under the steps of that request |
| ClearanceSteps.TombstoneLinks | src/datasource_kit/fleet/process.py:926-936 | two links exactly when pid.json and a quarantine both name the tombstone, so the link-count gate reads the ledger correctly |
| ClearanceSteps.RecoverSound | src/datasource_kit/fleet/process.py:669-684 | recovery removes the one matching temporary link, leaves a single link and keeps everything else |
| ClearanceWedge.LongRequestSizes | src/datasource_kit/fleet/process.py:634-638 | a concrete valid request has an intent of exactly 8192 bytes and a completion beyond the limit |
| ClearanceWedge.LongRequestWedges | src/datasource_kit/fleet/process.py:949-986 | clearing with it retires the tombstone and fails, and every rerun fails too |
| FileSystem.AloneIffOneLink | src/datasource_kit/fleet/process.py:615-631 | a link count of one says that the name is the only one |
| ClearanceProgram.UnitDirectory.AtomicPrivateJson | src/datasource_kit/fleet/process.py:634-665 | publishing in place, call by call, ends where the machine's steps end, wherever it is cut off |
| ClearanceSteps.RecoverExact | src/datasource_kit/fleet/process.py:669-684 | in any file system a record opens exactly when its name is alone on the inode or shares it with one temporary; then a single link is left and that temporary is all that can be gone |
| ClearanceProgram.UnitDirectory.OpenAudit | src/datasource_kit/fleet/process.py:615-684 | opening in place has just that outcome for its caller, and changes nothing when it refuses |
| ClearanceProgram.UnitDirectory.AuthorizeAndRetire | src/datasource_kit/fleet/process.py:922-982 | the gates, the quarantine link and the unlink in place equal the machine's steps; unless pid.json is a tombstone without a token, of the unit, generation and digest asked for and with no link but its own, nothing is written |
| ClearanceProgram.UnitDirectory.ClearLegacyProcessTombstone | src/datasource_kit/fleet/process.py:1010-1028 | the whole call, updating the directory in place, equals the machine's run for every choice of errors, short writes and death; arguments it should not have been given raise before anything is done |
| AuditIo.ReadRegular | src/datasource_kit/fleet/process.py:591-603 | however the reads are cut, exactly the file's bytes, or a failure exactly when there are more than the limit, never consuming more than one byte beyond it |
| AuditIo.WriteAll | src/datasource_kit/fleet/process.py:643-648 | however short the writes, the whole record, or a proper prefix and a failure |
| AuditIo.FailsOnlyAtDeadCall | src/datasource_kit/fleet/process.py:644-648 | the write loop fails only at a call that moved nothing |
| AuditIo.WriteThenRead | src/datasource_kit/fleet/process.py:591-648 | what one loop writes the other reads back; of a cut-off write it can read only a proper prefix |
| Gate.RunsIffAcknowledged | src/datasource_kit/_exec_gate.py:12-22 | the consumer is run exactly when some non-empty reads joined to "ACK\n" |
| Gate.OnlyWholeAcknowledgement | src/datasource_kit/_exec_gate.py:12-22 | of a channel cut off anywhere, only the whole acknowledgement runs it |
| Gate.RunGate | src/datasource_kit/_exec_gate.py:12-22 | the accumulating loop decides as the per-read verdicts do |
| LaunchSafety.ApplySound | src/datasource_kit/fleet/process.py:389-482 | every step of supervisor, child and operator keeps: nothing is sent to a gate before its record, and a child of the current tombstone is the one pid.json is about |
| LaunchTheorems.ExecHasProvenance | src/datasource_kit/fleet/process.py:389-482 | in every run, a child that ran its consumer had its pid and token in pid.json at an earlier moment, before it ran |
| LaunchTheorems.ExecUnderRecord | src/datasource_kit/fleet/process.py:389-415 | at the step that runs the consumer the child has the whole acknowledgement, and, direct stops taken as one step, pid.json names it unless a clearance came between |
| LaunchTheorems.AbandonedNeverRuns | src/datasource_kit/_exec_gate.py:15-21 | a gate whose channel closed on anything but the whole acknowledgement never runs the consumer, whatever follows |
| LaunchTheorems.OneLaunchBetweenClearances | src/datasource_kit/fleet/process.py:431-463 | no two children are started between the same two clearances |
| LaunchTheorems.TombstoneFailsClosed | src/datasource_kit/fleet/state.py:307-331 | while pid.json is there, no desired state, heartbeat, stop, pass, crash or restart starts a child, stamps a launch, moves the generation or alters the recorded provenance |
| LaunchTheorems.SpawnedOutcomeIsTrue | src/datasource_kit/fleet/state.py:344-353 | a "spawned" outcome names the child pid.json is about and the generation saved with it, and says alive only of a recorded child |
| LaunchTheorems.OneExecBetweenClearances | src/datasource_kit/fleet/process.py:431-463 | any two executions of the consumer have a clearance between them, unless a child was pending at the latest clearance, however earlier ones were taken and with running children cleared away included |
| LaunchClearance.OneExecIff | src/datasource_kit/fleet/process.py:1035-1074 | after any history and a clearance, at most one consumer is executed until the next, whatever happens, if and only if no child of any launch is pending when it is taken |
| LaunchClearance.UnsafeClearance | src/datasource_kit/fleet/process.py:1035-1074 | from every unit never launched, a run to a clearance that can be taken and after which two consumers are executed before the next one and are alive together |
| LaunchTheorems.AtMostOneAlive | src/datasource_kit/fleet/process.py:1035-1074 | if no child was live at the latest clearance, however earlier ones were taken, at most one consumer runs and, direct stops taken as one step, pid.json records its pid and token |
| LaunchStops.StraddlingStopIff | src/datasource_kit/fleet/process.py:492-518 | a stop whose write comes later leaves pid.json as a stop in one step at that time would, if and only if in between no clearance removed the tombstone and no pass recorded its child |
| LaunchStops.StopTakesBackRecord | src/datasource_kit/fleet/process.py:492-518 | from every unit never launched, a run in which a stop that read the intent and writes after the record leaves pid.json without a pid while the consumer runs |
| LaunchStops.StopBringsBackTombstone | src/datasource_kit/fleet/process.py:499-517 | from every unit never launched, a run in which a late write brings back a cleared tombstone, and one in which it overwrites that of the next launch |
| LaunchClearance.ClearanceSafeIff | src/datasource_kit/fleet/process.py:1035-1074 | after any history, a clearance can be followed by two consumers alive together before the next if and only if a child of some launch is live when it is taken |
| Generations.GenerationCountsLaunches | src/datasource_kit/fleet/state.py:332-353 | the saved generation is the initial one plus the "spawned" outcomes; a tombstone carries it or its successor; stamps never fall |
| Generations.StampRepeatsIff | src/datasource_kit/fleet/state.py:332-353 | the launch after a clearance repeats the cleared tombstone's stamp if and only if that stamp was ahead of the saved generation at the clearance, and stamps above all earlier launches if and only if it was not |
| Generations.ZombieAcceptedIff | src/datasource_kit/fleet/state.py:282-292 | once the next launch is reported, a heartbeat of the launch cleared away is accepted if and only if its stamp was ahead of the saved generation at the clearance |
| Generations.ZombieHeartbeat | src/datasource_kit/fleet/state.py:269-292 | from every unit never launched, a run with careful clearances in which two launches share a stamp, the first one's consumer was executed, and its heartbeat is accepted after the second is reported |
| Generations.HeartbeatFencing | src/datasource_kit/fleet/state.py:282-285 | when no launch is lost, stamps are consecutive and a heartbeat of launch i is accepted exactly while i is the launch reported last |
| Heartbeats.MergeWritesNoCore | src/datasource_kit/fleet/state.py:282-292 | whatever keys a heartbeat carries, merging it leaves every core key of the state as it was |
| Heartbeats.HeartbeatsErased | src/datasource_kit/fleet/state.py:230-292 | over one state dictionary holding core and other keys, deleting all heartbeats from a run leaves the core keys of the loaded state, the tombstone, stops, launches and outcomes unchanged at every step, for any policy over core keys |
| Heartbeats.SameDecisions | src/datasource_kit/fleet/state.py:154-162 | the default policy, which wants exactly "enabled" and "paused" units up, is one of these, so it decides alike and the same things are reported and started |
| LaunchRules.ClearsExactly | src/datasource_kit/fleet/process.py:1035-1074 | pid.json goes away only by a clearance between passes with exactly its generation and token, which always succeeds and changes nothing else but the handle |
| LaunchRules.HandlesAreOwn | src/datasource_kit/fleet/process.py:418-513 | after a supervisor's death only children launched since are owned, so no stop signals an older one |
| LaunchRules.NoChannelLeftOpen | src/datasource_kit/fleet/process.py:389-406 | whenever no pass is in progress, however the last one ended, the channel of every child is closed |
| LaunchRules.NeverStuck | src/datasource_kit/fleet/process.py:389-415 | in no run is a pass stuck, but for waiting on a child that lives and has not spoken |
| LaunchRules.BreaksOffExactly | src/datasource_kit/fleet/process.py:401-406 | a pass that breaks off closes the channel of a child it started and gives nothing else up, unless the supervisor died |
| LaunchRules.ChildMovesExactly | src/datasource_kit/_exec_gate.py:12-22 | what a child may do: speak once, read at most sixteen bytes of what is there, meet the end behind it, or end |
| LaunchRules.StateReads | src/datasource_kit/fleet/state.py:220-238 | a stored key reads as stored, except the unit's name; a missing one of the six core keys reads as its default |
| LaunchRules.SavesWhole | src/datasource_kit/fleet/state.py:242-252 | a new label and an accepted heartbeat are saved with the whole state, defaults included |
| LaunchRules.AcceptsExactly | src/datasource_kit/fleet/state.py:282-285 | the fence accepts exactly the saved generation, true counting as one and false as zero |
| LaunchRules.MergeExactly | src/datasource_kit/fleet/state.py:285-292 | an accepted heartbeat gives every key but the six core ones, and every other key stays |
| PassOutcomes.LabelDecides | src/datasource_kit/fleet/state.py:154-162 | from any idle unit, after a label is accepted: without pid.json a launch is fenced exactly for "enabled" and "paused", over pid.json a stop is requested exactly for "disabled" |
| PassOutcomes.PassReports | src/datasource_kit/fleet/state.py:307-358 | whatever is done around it and wherever it breaks off, a pass reports nothing or once: blocked over a tombstone, stopped for an unwanted unit without one, otherwise spawned under the next generation, with what was saved key by key and the pid on record of any child reported alive |
| PassOutcomes.BlockedPass | src/datasource_kit/fleet/state.py:315-331 | an undisturbed pass over pid.json starts nothing; the note of the TERM is saved if and only if the unit is unwanted and the live recorded child is owned; it marks pid.json only for an unwanted unit |
| PassOutcomes.StopExactly | src/datasource_kit/fleet/process.py:492-518 | a TERM is sent if and only if the handle of the recorded, still running child is owned; then the handle stays, any other owned handle of that token is given up |
| PassOutcomes.DisabledPass | src/datasource_kit/fleet/state.py:354-358 | an undisturbed pass of a unit just disabled, without pid.json, starts no child and reports noop and "stopped" |
| PassOutcomes.LaunchPass | src/datasource_kit/fleet/process.py:389-415 | a launch nothing goes wrong with ends with one owned child whose closed channel holds "ACK\n", its pid, the next generation and its token in pid.json and in the state, and the report "running"; as soon as it reads, it runs the consumer |
| PassOutcomes.FenceRefuses | src/datasource_kit/fleet/state.py:334-342 | a launch that finds pid.json at its fence leaves it alone, starts nothing and reports "unknown" |
| SupervisorProgram.Supervisor.SetDesired | src/datasource_kit/fleet/state.py:242-252 | exactly the three labels are accepted; the label then reads back as asked and every other key of the backfilled state as before; a refused one changes nothing |
| SupervisorProgram.Supervisor.MergeHeartbeat | src/datasource_kit/fleet/state.py:269-292 | accepted exactly on the current generation; every core key reads back as before, every other key as the accepted heartbeat has it |
| SupervisorProgram.Supervisor.RequestStop | src/datasource_kit/fleet/process.py:492-518 | a signal if and only if pid.json is there, its token's handle is owned, and its pid is that of the child, still running; then no handle changes, otherwise only the one of that token is given up; pid.json keeps pid, token and generation and is marked |
| SupervisorProgram.Supervisor.SpawnProcess | src/datasource_kit/fleet/process.py:389-415 | the handshake in place follows the machine to the end of the pass, with errors or death before any effect, timeouts, a cut acknowledgement and other actors in between |
| SupervisorProgram.Supervisor.Spawn | src/datasource_kit/fleet/process.py:418-482 | fence, intent, child, record, acknowledgement and report in this order, breaking off anywhere, end as the machine's steps end |
| SupervisorProgram.Supervisor.ReconcileUnit | src/datasource_kit/fleet/state.py:307-358 | a pass, whatever heartbeats, labels, stops and children do in between and wherever it raises or dies, equals the machine's run over its script, returns an outcome exactly when one is recorded, and that outcome and the saved state are those of the decision |
| Pass.CompleteIsRun | src/datasource_kit/fleet/state.py:307-358 | that script is a run of the machine and always ends the pass |
| Store.InMemoryStore.Upsert | src/datasource_kit/protocols.py:126-130 | record by record, a missing id raising after the records before it are in |
| Store.InMemoryStore.ReplaceAll | src/datasource_kit/protocols.py:132-135 | all or nothing: a missing id leaves the store as it was |
| Store.Idempotent | src/datasource_kit/protocols.py:126-130 | upserting a batch again changes nothing, not even the order of keys |
| Store.OrderOfArrival | src/datasource_kit/protocols.py:126-130 | known ids keep their places and new ones follow in the order of their first record |
| Store.Absorbed | src/datasource_kit/protocols.py:126-130 | a batch cut off anywhere and then upserted whole is as if upserted once |
| Store.ReplayAgree | src/datasource_kit/protocols.py:126-130 | when part of a finished batch may be upserted again without lasting harm |
| Planner.BuildSequence | src/datasource_kit/fetch.py:72-99 | a planner is built exactly when kind and values have text and values are distinct; otherwise the first offending unit is refused |
| Planner.SequencePlans | src/datasource_kit/fetch.py:101-113 | a checkpoint is refused exactly when it names none of the units, planning stops exactly after the last unit or without any, and a unit is fetched exactly from the checkpoint of the one before |
| Planner.SequenceAdvances | src/datasource_kit/fetch.py:115-123 | after a unit the cursor moves to it, except that the last one ends the sequence and a foreign cursor raises |
| Planner.ResumePlans | src/datasource_kit/fetch.py:156-163 | exactly a checkpoint of another kind is refused; otherwise what the checkpoint names is fetched, or the start |
| WorkerTheorems.SequenceWalks | src/datasource_kit/fetch.py:101-129 | a built sequence planner plans, from the checkpoint of each unit, exactly the next one, and stops after the last |
| WorkerTheorems.ResumeWalks | src/datasource_kit/fetch.py:156-177 | a resume planner follows its pages and stays on the last |
| WorkerWalk.ExactlyOnceEffect | src/datasource_kit/worker.py:289-374 | under any schedule of stage failures, partial persists, failed saves and restarts, a run that stopped normally leaves the failure-free store, if units are replayable or no save fails late or the first failure ends the run |
| WorkerReplay.ExactlyOnceIff | src/datasource_kit/worker.py:171-188 | with late save failures allowed, that effect holds for all schedules if and only if every unit is replayable, or the first failure ends the run, or the run has no normal end, for an idling resume planner or a record without an id |
| WorkerReplay.UnusableNeverStops | src/datasource_kit/protocols.py:126-130 | a run over a source with a record that has no id never stops normally |
| WorkerReplay.NeverStops | src/datasource_kit/fetch.py:156-177 | a resume planner that idles when exhausted never stops normally |
| WorkerReplay.LateSaveHarms | src/datasource_kit/worker.py:320-352 | for a unit that is not replayable, a concrete schedule that ends normally with a different store |
| WorkerReplay.FailureFreeRun | src/datasource_kit/worker.py:289-359 | the failure-free run takes one turn a unit, and one more plan when exhaustion only idles, and upserts every batch once |
| WorkerTheorems.NeverSkips | src/datasource_kit/worker.py:320-359 | at every moment the persisted units are a stuttering walk of the order, and when the durable checkpoint is at unit q all units before it are in and at most unit q besides |
| WorkerTheorems.StuttersMeans | src/datasource_kit/fetch.py:101-129 | in such a walk every earlier unit was persisted whole and no later one touched |
| WorkerTheorems.RerunsRepeatOnlyLast | src/datasource_kit/fetch.py:156-177 | restarted after a normal stop, a resume planner persists its last page again and nothing else, a sequence planner nothing |
| WorkerTheorems.StopsExactlyWhenDone | src/datasource_kit/worker.py:285-359 | one run stops at the turn that completes the last unit and not before, whatever fails in between |
| WorkerTheorems.IterationsToTheEnd | src/datasource_kit/worker.py:285-375 | with m units left and f failing turns the run stops after exactly m + f iterations |
| Worker.IterationsAccounted | src/datasource_kit/worker.py:285-375 | iterations are completions plus failures plus idle plans plus stop plans |
| WorkerProgram.WorkerHost.Attempt | src/datasource_kit/worker.py:290-359 | the guarded part of an iteration leaves what was done before a raise, as the machine does |
| WorkerProgram.WorkerHost.Run | src/datasource_kit/worker.py:273-375 | read off the turns and no counter: it gives up exactly at the first turn at which as many turns in a row have failed as the limit says; otherwise it ends at the first stop, at the bound or at a stop request; it returns the checkpoint, completions and failures of its turns and leaves the disk and the store they make |
| WorkerFailures.RunReadOff | src/datasource_kit/worker.py:285-375 | the machine's count of consecutive failures is the length of the longest row of failing turns up to now, since the last completion, idle plan or start, and its other counters, checkpoint, disk and store are those of the turns |
| Continuous.LoopCounters | src/datasource_kit/continuous.py:140-222 | sequence, counted, attempts and repeated_wait are what the trace of callbacks says; attempts never exceed rotation_attempts, counted never exceeds max_counted, and a limit rotation comes exactly when the boundary is full |
| ContinuousTrace.LoopTold | src/datasource_kit/continuous.py:140-222 | the loop takes the turns up to the first escape, stop or full count and no further; it calls the step unless control spoke; each directive to rotate or wait is followed by its rotation and then its wait of the delay or zero, and there is no other; it is stopped exactly when the last directive says stop, and nothing is called or said after that |
| ContinuousProgram.ContinuousWorkerHost.Run | src/datasource_kit/continuous.py:127-194 | the loop with its nested counters takes just those turns, and its trace and summary, last directive included, are what they say |
| Continuous.DirectiveMatches | src/datasource_kit/continuous.py:203-222 | applying a directive keeps every counter equal to what the trace of callbacks says, rotation and wait included |
| RateLimit.RateBound | src/datasource_kit/ratelimit.py:45-62 | from any attempt to any later one, by any callers, the tokens granted are at most the capacity plus rate times the time between |
| RateLimit.BurstReached | src/datasource_kit/ratelimit.py:45-62 | the bound is tight: a full bucket grants its whole capacity at once |
| RateLimit.GrantedConserved | src/datasource_kit/ratelimit.py:51-58 | granted plus left never exceeds what was there plus what time brought, and equals it if and only if no refill overflowed the bucket |
| RateLimit.AttemptExact | src/datasource_kit/ratelimit.py:51-58 | an attempt is granted exactly when what was there and what time brought, held to the capacity, covers it; it takes just its amount, a refused one nothing |
| RateLimit.LevelBounded | src/datasource_kit/ratelimit.py:51-58 | the stored tokens stay between zero and the capacity |
| RateLimit.TokenBucket.Acquire | src/datasource_kit/ratelimit.py:42-62 | uncontended, it refuses exactly amounts that are not positive or exceed the capacity, and otherwise sleeps at most once, for exactly the shortfall |
| Backoff.DelayMonotone | src/datasource_kit/worker.py:210-217 | delays never shrink and stay between the initial and the maximum wait |
| Backoff.DelayRecurs | src/datasource_kit/worker.py:210-217 | the first wait is the initial one, each further one the multiplier times the last held to the maximum, so below it neighbours have exactly that ratio |
| Backoff.DelayIsRetryShifted | src/datasource_kit/retry.py:21-25 | with multiplier two the delay after n failures is retry's capped exponential delay of attempt n - 1 |
| Backoff.Retry | src/datasource_kit/retry.py:28-53 | k calls, k - 1 waits of the plan, stopping at the first call that does not raise what is retried; no call without a retry budget |
| Backoff.CallsUnique | src/datasource_kit/retry.py:45-53 | that contract fixes the number of calls |
| Backoff.LinearTotal | src/datasource_kit/retry.py:21-25 | uncapped linear waits total b * k * (k - 1) / 2 |
| Backoff.ExponentialTotal | src/datasource_kit/retry.py:21-25 | uncapped exponential waits total b * (2^(k - 1) - 1) |
| Backoff.CapBounds | src/datasource_kit/retry.py:23-24 | a cap bounds every wait and never lengthens the total |
| Backoff.ZeroCapNeverWaits | src/datasource_kit/runtime.py:123-131 | with the default cap of zero no retry waits |
| Window.SplitRangeIntoDays | src/datasource_kit/window.py:33-64 | oldest first every day of the range in order, newest first its reverse; an unknown order is refused |
| Window.DaysExact | src/datasource_kit/window.py:33-64 | every day of the range exactly once, in either order |
| Window.OrdersMeet | src/datasource_kit/fetch.py:86-88 | walking the oldest-first days in reverse is walking the newest-first days forward |
| Ingest.RunWindows | src/datasource_kit/runtime.py:54-82 | the loop with its lists and counters computes the specified ledger |
| Ingest.IngestConserves | src/datasource_kit/runtime.py:54-112 | each window gives exactly one report or failure warning, in order; records fetched are the sum of persistable counts; retries used are, in the trace of fetch calls, the failed calls that a later call of the same window made good |
| Ingest.LedgerExact | src/datasource_kit/runtime.py:54-82 | the records fetched are, in window order, the records with an id of every window whose throttle, one allowed fetch call and mapper went through; reports, failure and invalid-record warnings and the throttle's waits are those of the windows in order |
| Ingest.CallsExact | src/datasource_kit/runtime.py:55-68 | the fetch calls of each window are just those up to the first that returns or the last allowed, and none if the throttle raises |
| Ingest.KeepPartitions | src/datasource_kit/runtime.py:134-142 | valid and invalid records partition the batch |
| Ingest.KeepInOrder | src/datasource_kit/runtime.py:134-142 | each part keeps the order of the batch |
| Ingest.ReportAddsUp | src/datasource_kit/runtime.py:65-79 | a report's persistable and invalid counts add up to its mapped batch |

## Left out

- Ownership, mode, symlink and trusted-ancestor checks, and the lock file's own creation: the namespace is well formed, and the unit lock with the thread lock is one mutex that a death releases.
- Power loss: a crash is process death; directory fsyncs have no effect in the model.
- Parsing of JSON records: an audit record on disk is its fields, with the length of its JSON line; malformed files are contents that match no record.
- Reuse of inode numbers, and `stop` or a launch rewriting pid.json in the middle of a legacy clearance.
- Supervisor lock stealing (`acquire_lock`, `lock_is_live`, `release_lock`): the code's read-unlink-create loop does not decide mutual exclusion, so nothing is claimed about it.
- Lost updates between `set_desired` and `merge_heartbeat`: each is one atomic action of the launch machine; a reconcile pass, which loads and later saves the state, is not.
- LaunchTheorems.ExecUnderRecord: the clause about pid.json takes a direct stop as one step; `LaunchStops.StraddlingStopIff` says exactly when a stop without the lock is as good.
- LaunchTheorems.AtMostOneAlive: the clause about pid.json takes a direct stop as one step, as above.
- A state file whose generation is not a number, on which a pass raises, and JSON types a heartbeat value may have beyond numbers, booleans, text and null: opaque to the reconciler.
- The legacy clearance inside the launch machine: a pid.json that was created and never written stays there; `clear_process_tombstone` is one atomic action under the unit lock.
- The "unknown" observation of `observe_actual` (an lstat error other than absence), and exceptions of injected spawn and stop actions beyond a failing pass.
- Signals and process groups: a child may end at any moment, which covers a delivered TERM.
- An operator clearance in the middle of a pass: it needs the unit lock the pass holds.
- Heartbeat and observe callbacks of the worker and continuous hosts, exceptions from sleep and clock, and exceptions from a rotate callback, which end the run.
- Legacy worker intents (`WorkerStep`, intents without `output`) and consumer planners other than the two of the library, beyond a plan that idles.
- RateLimit.TokenBucket.Acquire: one caller alone with a clock that reaches the end of its sleep; contention is covered by the rate bound over arbitrary attempts.
- Refused constructor arguments of the token bucket, the backoff policy and the continuous host: the classes take the accepted ones as a precondition.
- Floating-point rounding and overflow, the calendar's limits, and truthiness of record ids that are not strings.
- Exceptions outside `Exception` in the ingest loop, the diff, assess and persist stages after it, and the report's digest.
- Registries, manifests, result constructors, CLI and web adapters, SQLite drivers and profile loading: thin or without branching of their own.
