# Evidence recorder and auditors: a Dafny model

The system records evidence step by step and audits it later with independent code that trusts nothing but the stored
files. Its hard promises lie where the two must agree and where evidence must survive interleaving, mutation and
reordering. The model states those promises and proves them for every input, every run and every reachable state.

`dafny verify dfyconfig.toml` checks the whole project.

**Captured runtime and its audit.** `CapturedRuntime` is a class with the recorder's own fields; its methods record
events, run tools, compare bound files, send requests and seal. What each operation does to the recording is a function,
its *course* (`RuntimeCourse`, `RuntimeRun`), which every method follows exactly. What the courses amount to is told in
`RuntimeMeaning` without them: the events and payloads of a call and of a send, when a bound file is the same, that a file
holds the last text written to it and that this text is what is read, shown and sealed. `RuntimeAudit`, `StateAudit`,
`DecisionViewAudit` and `UsageLedger` are the auditor: methods that add codes to a list, each proved silent exactly on a
declarative condition over arbitrary stored files; `WholeAudit` puts them together. What silence guarantees of files that
came from anywhere is told from the stored bytes alone: `RuntimeTruth` for the log, the requests, the tool calls, the
bindings and the ledger, `StatesTrue` and `ViewTrue` for states, sealed files and views. `RecordThenAudit` puts recorder
and auditor together: whatever operations a run performs, its log is the trace of those operations and the audit of what it
sealed is silent. `SmokeLoop` is the bounded conversation loop on top of the runtime.

**Verifier binding.** `SessionHooks.Store` is the evidence store of one session, with one hook after another; what a hook
does, write by write, is its *deed* (`SessionDeeds`), what a run of hooks does is in `SessionRun`. `HookPayload` says what a
payload means and `HookEffects` who may write an event, a marker, a checkpoint or a receipt, from the payload's own fields.
`HookInterleaving` lets any number of hook processes run interleaved at their file operations. Sequence and interleaving
keep the one invariant of `SessionInvariant`, from which state binding follows. `SessionAudit` is the session auditor and
the exact condition under which it accepts a recorded session; `SessionTruth` says what its silence means of arbitrary
stored records.

**Captured state.** `CanonicalManifest` prints the canonical manifest character by character, with a reader that proves
the print injective; `RealityProbe` captures, restores and captures again; `Checkpoint` divides a repository into
captured entries and gaps; `DemoData` derives the change list and the failure boundary.

**Algebra and detectors.** `Labels` and `Visibility` are label propagation and prefix-only decision views. `Candidates`
and `Coverage` are the duplicate-read detector and the archive totals.

Digests, JSON readers and transports are arbitrary function parameters and inputs, so nothing is assumed of them. In
particular no digest is taken to be injective. Where two different contents with one digest matter, the statement names
them: a course `Halted(offered, held)` and a deed refused with `Refused(offered, held)` carry the content this very
operation offered to the write-once store and the one the store held in its place, and say that they differ and have one
digest. Nothing else excuses an operation from what it promises. Identities that the code derives from other identities
(event, attempt, tool, receipt ids, locators) are datatype constructors; random identities are fresh numbers.

Where the code departs from what it seems to promise:

- A session whose operations are all complete can still be rejected: a record file is written before its blob, and if the
  store holds another content under the record's digest, the record stays without its blob.
  `SessionAudit.TornRecordRejected` runs one hook of a new session into that, and `SessionAudit.RecordThenAudit` is the
  exact condition: no hook of the run had the blob of a record refused.
- The smoke loop numbers its request ids from zero while the runtime numbers attempts from where it is, so a loop started
  on a runtime that has already sent something produces a run its own audit rejects: the run passes exactly when nothing
  was sent before (`SmokeLoop.SmokeCleanExactly`).
- The recorder writes whatever code revision it was given, while the audit refuses a manifest with a blank one; a run
  passes exactly when the revision is not blank (`RuntimeRun.StatesPass`).
- A write-once file accepts equal bytes again, so a repeated pre hook of one operation might seem able to pass; it never
  does, because its marker names another checkpoint and so always differs (`SessionWrites.PendingDiffers`).

## Model

| member | source | states |
|---|---|---|
| `RuntimeRecorder.RecordThenAudit` | src/acr/runtime/runner.py:71-441 | Agreement of recorder and auditor: any sequence of reads, writes, tests, state checks and sends, with any outcomes, ended by a seal, leaves exactly the recording of its course and a log that is exactly the trace of those operations, and the whole audit reports nothing unless the recorded code revision is blank; every file of the workspace, and every sealed file, holds the text of the last write to it that began, or its initial text; the log ends with the status and reason given; it is stopped exactly when the course meets a content the store refuses, and then returns that content and the different one held under its digest |
| `RuntimeRun.WholeRunPasses` | src/acr/runtime/runner.py:192-441 | The same for the course of a run: sealed it meets every condition of the audit, its log is the trace of its operations, and if it halts, the two contents it names differ and have one digest |
| `RuntimeRun.RunKeeps` | src/acr/runtime/runner.py:192-368 | Over any operations the recorder invariant and the quotability of the conversation are kept, no stored byte changes, and the log grows by exactly the trace of the operations |
| `RuntimeRun.StepKeeps` | src/acr/runtime/runner.py:192-368 | The same for one operation |
| `RuntimeRun.SealPasses` | src/acr/runtime/runner.py:370-441 | What a recorded run seals satisfies every condition on log, requests, bindings and ledger |
| `RuntimeRun.StatesPass` | src/acr/runtime/runner.py:391-440 | The states, the manifest and the sealed artifact of a sealed run satisfy the audit exactly when the recorded code revision is not blank |
| `RuntimeRun.SealSound` | src/acr/runtime/runner.py:370-441 | A seal adds one stop event, and the log, the final tree, every file of the workspace, the sealed artifact and the final state are then held |
| `RuntimeRun.SealedExactly` | src/acr/runtime/runner.py:387-396 | The sealed artifact lists exactly the files of the workspace, each once, with the digest of its text |
| `RuntimeMeaning.WorkspaceHolds` | src/acr/runtime/tools.py:146-180 | A run leaves every file with the text of the last write to it that began, or its initial text, and makes or removes none |
| `RuntimeMeaning.ReadTellsLastWrite` | src/acr/runtime/tools.py:75-144 | A read that succeeds stores, and shows the model, the text of the last write to the file before it, or the initial text |
| `RuntimeMeaning.CallRecounted` | src/acr/runtime/tools.py:75-246 | What a call puts on record, field by field: its numbered start event, then its finish event, which names as stored evidence the text the file held, was given, or the sandbox answered, or says that the call failed, for a missing file or a refused content; a read is bound to the digest of the very text |
| `RuntimeMeaning.SendRecounted` | src/acr/runtime/runner.py:296-368 | What a send puts on record, field by field: the snapshot with its cutoff, bodies and blocks, the usage reported or the reason it is unknown, the request event, the terminal event with the response or the exception, the two physical records, and all the bytes they name |
| `RuntimeMeaning.ComparisonExactly` | src/acr/runtime/runner.py:227-263 | When a bound file is the same, changed or unknown: unknown for a binding that is not of a complete read of this run with one label of its own number, unknown when the bytes or the file are gone, otherwise by the digest of the text now there |
| `RuntimeMeaning.StatesSealText` | src/acr/runtime/runner.py:387-413 | The sealed artifact lists each file of the workspace once, with its path, the digest of its text and the stored text itself, and no other |
| `RuntimeMeaning.SealedTexts` | src/acr/runtime/runner.py:370-441 | A whole run, sealed: the workspace holds the last writes, the sealed artifact holds the workspace, and the last event says the status and the reason given |
| `RuntimeSeal.SealedClean` | src/acr/audit.py:284-319 | The sealed files of any recorded run satisfy every condition of the audit of log, configuration, requests, bindings and ledger |
| `WholeAudit.AuditWhole` | src/acr/audit.py:275-319 | Over arbitrary stored files, states and views, the whole run audit reports nothing if and only if the declarative condition `WholeClean` holds; and then everything `StatesTrue`, `RunTrue` and `ViewTrue` say of the stored bytes is so |
| `RuntimeAudit.AuditRun` | src/acr/audit.py:284-319 | Over arbitrary stored files, the audit of log, configuration, requests, bindings and ledger reports nothing if and only if the declarative condition `RunClean` holds |
| `StateAudit.AuditStates` | src/acr/audit.py:371-502 | Over arbitrary stored files, silent exactly when the producer manifest, both repository states and the sealed artifact are true: each held as the run's own bytes at its own place, each state of this run and phase with the hash of its stored tree, the sealed artifact with the digest recorded, the tree of the final state and every listed file's bytes |
| `StateAudit.StatesExactly` | src/acr/audit.py:371-502 | The checks of states, manifest and sealed artifact, taken together, say exactly that, told from the stored bytes |
| `StateAudit.ManifestExactly` | src/acr/audit.py:391-402 | The completeness test of a manifest: producer kind, code revision, schema version 1.0 and runtime version are texts that are not all white space |
| `StateAudit.AuditProducer` | src/acr/audit.py:371-402 | Silent exactly when the manifest is the run's own, stored as its file says, and complete |
| `StateAudit.AuditPhase` | src/acr/audit.py:440-476 | Silent exactly when a state is what its reference and its file hold, belongs to this run and phase, and its tree has the recorded hash |
| `StateAudit.AuditArtifact` | src/acr/audit.py:479-502 | Silent exactly when the sealed artifact has its recorded hash, lists the tree of the final state, and every listed file's bytes are held under their digest |
| `RuntimeAudit.SnapshotHasOneStory` | src/acr/audit.py:643-772 | If the request audit is silent, every snapshot has a request event, a terminal event, an entered record and a terminal record, all four name its attempt and its sent body, the terminal kind is the one the physical boundary observed, and no other event or record is about the attempt |
| `RuntimeAudit.NoRecordAlone` | src/acr/audit.py:775-803 | Conversely, every request event, terminal event with an object payload and physical record belongs to a snapshot, and no two snapshots share an attempt |
| `RuntimeAudit.SentMessagesSourced` | src/acr/audit.py:540-640 | If the audit is silent, each message of a sent body with context blocks is the stored text of a public constant of its own place, or quotes one event of this run that was available by the request's cutoff: the content of its response, or what its tool gave |
| `RuntimeAudit.PayloadExactly` | src/acr/audit.py:303-315 | What the audit takes an event to say is the JSON object stored for it, as evidence of this run under its own digest |
| `RuntimeTruth.RunTold` | src/acr/audit.py:284-319 | What a silent audit guarantees of any stored run, told from the stored bytes: the log is the stored one, numbered, named and owned, with JSON payloads; tool starts and finishes pair up, once each; every binding has its finished read with the path, the digest and the bytes; every snapshot has its one request, terminal event and physical pair with all their bodies and the usage its response reports; its blocks account for the sent messages one by one; and the ledger is about these attempts |
| `RuntimeTruth.LogExactly` | src/acr/audit.py:284-315 | The log checks say exactly that: stored log, configuration, stop event, and number, owner, name and stored JSON payload of each event |
| `RuntimeTruth.ToolsExactly` | src/acr/audit.py:915-922 | The counter comparison says exactly that every start and finish names its call, no two of a kind the same, and every call that starts finishes and the other way round |
| `RuntimeTruth.BackedExactly` | src/acr/audit.py:926-950 | A binding is accepted exactly when a completed finish event of its name and number says its path and digest, and the bytes it names at the call's own place are stored and have that digest |
| `RuntimeTruth.StoryTold` | src/acr/audit.py:643-772 | Each snapshot's request event, terminal event and physical pair, field by field: bodies stored at their places, logical call, response or exception, usage as the response reports it; and nothing else is about the attempt |
| `RuntimeTruth.BlocksTold` | src/acr/audit.py:724-758 | The blocks of a snapshot account for the messages of its sent body one by one: place, role, digest of the text, and where the text comes from |
| `RuntimeTruth.LedgerTold` | src/acr/audit.py:322-368 | The ledger is about the attempts of the snapshots; there are totals exactly when the terminal event of every attempt reports every category, and a total is the sum of the numbers reported |
| `RuntimeCourse.KeepSound` | src/acr/store.py:13-54 | Storing a content keeps the log sound and the content readable; a refusal names two different contents with one digest |
| `RuntimeCourse.JournalSound` | src/acr/runtime/runner.py:192-225 | Recording an event appends exactly that event, with its payload readable as given, or is refused for a named other content |
| `RuntimeCourse.ToolSound` | src/acr/runtime/tools.py:75-246 | A tool call adds one start and one finish event; on success the text is the workspace's, the given or the sandbox's, only a read is bound, and what it showed can be quoted; a halt names two contents with one digest |
| `RuntimeCourse.ToolFailsFor` | src/acr/runtime/tools.py:108-120 | A call is finished as failed only when its file is not there or the store holds another content under the digest of its bytes |
| `RuntimeCourse.ToolKeepsRecorded` | src/acr/runtime/tools.py:75-246 | Whatever its outcome, a tool call keeps the recorder invariant |
| `RuntimeCourse.CheckSound` | src/acr/runtime/runner.py:227-263 | A comparison of a bound file is recorded by one state-check event under its own number, with the status that follows from the bytes now there |
| `RuntimeCourse.SendSound` | src/acr/runtime/runner.py:296-368 | A send that goes through leaves one snapshot, one request event, one terminal event, one physical pair and one usage, all about the same attempt |
| `RuntimeCourse.SendKeeps` | src/acr/runtime/runner.py:296-368 | With blocks whose messages the body carries, a send keeps the recorder invariant |
| `RuntimeCourse.ResponseJoinsAuthentic` | src/acr/runtime/runner.py:558-570 | The response joins the conversation as a turn that can be quoted from then on |
| `RuntimeCourse.PublicSound` | src/acr/runtime/runner.py:169-176 | A public constant is stored and the turn that shows it can be quoted |
| `RuntimeCourse.ReadBound` | src/acr/audit.py:906-952 | The binding of a finished read is one the binding audit accepts |
| `RuntimeCourse.ToolQuotable` | src/acr/audit.py:540-640 | What a finished tool call showed is an authentic turn from its finish event on |
| `RuntimeCourse.ResponseQuotable` | src/acr/audit.py:540-640 | The message content of a recorded response is an authentic turn from its event on |
| `RuntimeCourse.SendKeepsRecorded` | src/acr/runtime/runner.py:296-368 | A completed send keeps the whole recorder invariant |
| `RuntimeRecorder.CapturedProvider.constructor` | src/acr/adapters/provider.py:150-160 | A new provider is bound to no run |
| `RuntimeRecorder.CapturedProvider.BindCapture` | src/acr/adapters/provider.py:165-174 | The first run to bind a provider keeps it; any other is refused and the binding stays |
| `RuntimeRecorder.CapturedRuntime.constructor` | src/acr/runtime/runner.py:74-135 | A new run holds its manifest, configuration, initial tree and initial state, satisfies the recorder invariant, has no events and is not sealed |
| `RuntimeRecorder.CapturedRuntime.PublicContext` | src/acr/runtime/runner.py:169-176 | The recording becomes that of the course of a public constant, and its turn is returned; a refusal names both contents |
| `RuntimeRecorder.CapturedRuntime.Ingest` | src/acr/store.py:13-54 | Write once: equal bytes are accepted again, other bytes under the same digest are refused, nothing else changes |
| `RuntimeRecorder.CapturedRuntime.RecordEvent` | src/acr/runtime/runner.py:192-225 | The event gets the next number and its payload is stored; a sealed run refuses; a refused payload names both contents and leaves the log as it was |
| `RuntimeRecorder.CapturedRuntime.StartTool` | src/acr/runtime/tools.py:78-85 | A call number never used before and one start event naming it; a sealed run refuses after the number is taken |
| `RuntimeRecorder.CapturedRuntime.FinishTool` | src/acr/runtime/tools.py:94-138 | The start event gets its one finish event with the stored body, and a read's binding joins the bindings |
| `RuntimeRecorder.CapturedRuntime.FinishWithText` | src/acr/runtime/tools.py:88-144 | The bytes become evidence and the call is finished with them; exactly when the store holds other bytes under their digest it is finished as failed |
| `RuntimeRecorder.CapturedRuntime.FailTool` | src/acr/runtime/tools.py:108-120 | A failed call still has its finish event, and binds nothing |
| `RuntimeRecorder.CapturedRuntime.ReadFile` | src/acr/runtime/tools.py:75-144 | The recording follows the course of a read and recounts it event by event; on success the returned text is the workspace text, which is stored and bound |
| `RuntimeRecorder.CapturedRuntime.WriteFile` | src/acr/runtime/tools.py:146-180 | The recording follows the course of a write and recounts it event by event; once the call's start is on record an existing file holds exactly the given text, every other file is as before and none is made; otherwise the workspace is unchanged |
| `RuntimeRecorder.CapturedRuntime.RunTest` | src/acr/runtime/tools.py:182-246 | The recording follows the course of a test run on the sandbox's answer and recounts it event by event |
| `RuntimeRecorder.CapturedRuntime.CompareBoundFile` | src/acr/runtime/runner.py:227-263 | The recording follows the course of a state check, and the comparison returned is the recorded one: same exactly when binding and reference are attested, the bytes read and the file are there, and the text now there has the digest bound; changed exactly when it has another |
| `RuntimeRecorder.CapturedRuntime.Compare` | src/acr/runtime/runner.py:227-263 | What the file now at the bound path amounts to, stored before the event that tells it |
| `RuntimeRecorder.CapturedRuntime.ContextBlocks` | src/acr/runtime/runner.py:265-294 | Blocks are built exactly when every message has an origin and provenance; block k says where message k comes from, its role and kind, its place and the digest of its text |
| `RuntimeRecorder.CapturedRuntime.Transmit` | src/acr/adapters/provider.py:176-270 | Prepared, sent and returned bytes are stored and the two physical records are created, entered before terminal; a refusal names both contents |
| `RuntimeRecorder.CapturedRuntime.SendRequest` | src/acr/runtime/runner.py:296-368 | The recording follows the course of a send; a sealed run refuses, and a provider bound elsewhere is refused after the attempt number is consumed |
| `RuntimeRecorder.CapturedRuntime.RecordAttempt` | src/acr/runtime/runner.py:313-368 | Usage, snapshot and the two events of a send, or the refusal that stopped them |
| `RuntimeRecorder.CapturedRuntime.RecordPair` | src/acr/runtime/runner.py:335-365 | The request event and its terminal event, or the refusal that stopped them |
| `RuntimeRecorder.CapturedRuntime.Seal` | src/acr/runtime/runner.py:370-441 | A run is sealed once and exactly when its course goes through; what it returns is the sealed recording with its ledger and its states |
| `RuntimeRecorder.CapturedRuntime.StoreStates` | src/acr/runtime/runner.py:387-413 | The final tree, every file, the sealed artifact and the final state are stored in that order, or the refusal that stopped them is named |
| `RuntimeRecorder.CapturedRuntime.CloseLog` | src/acr/runtime/runner.py:373-375 | The stop event is appended and the whole log is stored as one artifact |
| `RuntimeRecorder.Perform` | src/acr/runtime/runner.py:192-441 | Each operation goes exactly as its step says, workspace and conversation included |
| `RuntimeRecorder.PerformSend` | src/acr/runtime/runner.py:296-368 | A send of quoted turns goes exactly as its step says, and its response joins the conversation |
| `RuntimeInvariant.AppendedSound` | src/acr/runtime/runner.py:192-225 | Appending an event keeps the log sound and its payload readable as stored |
| `RuntimeInvariant.SnapshotStays` | src/acr/audit.py:643-772 | A snapshot that is clean stays clean however the run goes on |
| `RuntimeInvariant.NextAttemptFresh` | src/acr/runtime/runner.py:303-312 | The next attempt id and its physical file names have never been used |
| `RuntimeInvariant.AttemptAdded` | src/acr/runtime/runner.py:296-368 | Adding one complete attempt keeps the correspondence of snapshots, events, physical records and usages |
| `RuntimeInvariant.HasToolStays` | src/acr/audit.py:906-952 | A binding the audit accepts stays accepted however the run goes on |
| `RuntimeSend.TurnsClean` | src/acr/audit.py:540-640 | The context blocks of authentic turns satisfy the audit of any snapshot whose cutoff has reached them and whose sent body carries those turns |
| `RuntimeSend.MaxAvailableReached` | src/acr/runtime/runner.py:316 | The greatest available number of a recorder prefix is below its length, so the cutoff of a request covers all it quotes |
| `RuntimeSend.SentSnapshotClean` | src/acr/audit.py:643-772 | The snapshot of a send satisfies every per-snapshot condition of the audit |
| `RuntimeSend.EndClean` | src/acr/audit.py:806-870 | The terminal event of a send, response or exception, with or without usage, satisfies the terminal audit |
| `RuntimeSend.SendRecorded` | src/acr/runtime/runner.py:296-368 | A send keeps the record of attempts |
| `RuntimeAudit.AuditLog` | src/acr/audit.py:284-315 | Silent exactly when the log is clean; the payload index is then the true one |
| `RuntimeAudit.AuditEvent` | src/acr/audit.py:303-315 | Silent exactly when the event's number, ownership and payload are right |
| `RuntimeAudit.IndexAttempts` | src/acr/audit.py:654-691 | The dictionary finds an event for exactly the attempt ids spoken of, and the list is longer than its set exactly when an id is spoken of twice |
| `RuntimeAudit.AuditInventory` | src/acr/audit.py:654-689 | Each duplicate and orphan code is reported exactly for its own reason, and no code at all exactly when snapshots, requests, terminals and physical groups have the same attempt ids, once each |
| `RuntimeAudit.IndexPhysical` | src/acr/audit.py:775-803 | Silent exactly when the physical records are sound, in distinct slots, paired and agree on the sent body; the groups returned are the records by attempt and phase |
| `RuntimeAudit.CheckGroups` | src/acr/audit.py:797-802 | Silent exactly when every group has both phases and both name the same sent bytes |
| `RuntimeAudit.AuditContext` | src/acr/audit.py:540-640 | Silent exactly when the block is a public constant or a faithful quotation of its origin event |
| `RuntimeAudit.AuditQuote` | src/acr/audit.py:586-640 | Silent exactly when the quoted bytes, label, binding and content are those of the event |
| `RuntimeAudit.AuditContexts` | src/acr/audit.py:724-758 | Silent exactly when blocks and sent messages match one to one and every block is visible and clean |
| `RuntimeAudit.AuditTerminal` | src/acr/audit.py:806-870 | Silent exactly when the terminal event, its payload, usage and physical outcome agree |
| `RuntimeAudit.AuditUsage` | src/acr/audit.py:873-903 | Silent exactly when the usage fact is what the response reports, or is unknown for a stated reason |
| `RuntimeAudit.AuditBody` | src/acr/audit.py:712-723 | Silent exactly when snapshot and request payload name the same stored body |
| `RuntimeAudit.AuditSnapshot` | src/acr/audit.py:692-772 | Silent exactly when the snapshot agrees with its request event, terminal event and physical pair |
| `RuntimeAudit.AuditRequests` | src/acr/audit.py:643-772 | Silent exactly when the inventory is clean and every snapshot corresponds to its own records |
| `RuntimeAudit.AuditTools` | src/acr/audit.py:915-922 | Silent exactly when tool starts and finishes pair up, each call once |
| `RuntimeAudit.IndexFinishes` | src/acr/audit.py:923 | The index names a finish event for every finish id, and only finish events |
| `RuntimeAudit.AuditBinding` | src/acr/audit.py:926-950 | With distinct event ids, silent exactly when a finished read of the run backs the binding |
| `RuntimeAudit.AuditBindings` | src/acr/audit.py:906-952 | Silent exactly when calls pair up, bindings name distinct reads, each is backed, and they equal the stored final list |
| `RuntimeAudit.TerminalUsages` | src/acr/audit.py:340-358 | The usage facts the ledger audit works from are those of the terminal events |
| `DecisionViewAudit.AuditViews` | src/acr/audit.py:955-1073 | Silent exactly when every stored view is true, as `ViewCleanExactly` says |
| `DecisionViewAudit.AuditView` | src/acr/audit.py:974-1002 | Silent exactly when the view is the run's own, rebuilds from the stored evidence, belongs to one request and its comparisons are told |
| `DecisionViewAudit.ViewCleanExactly` | src/acr/audit.py:974-1073 | The checks of a stored view, taken together, say exactly: its own name, run and producer, one snapshot with its blocks, cutoff and draft, its one label, every block visible, every comparison checked, bound by one block, told field by field by one state check, its bytes held and its status right |
| `DecisionViewAudit.RequestsExactly` | src/acr/audit.py:977-985 | One matching snapshot in the list is one snapshot with the blocks, the cutoff and the draft digest of the view |
| `DecisionViewAudit.AuditComparison` | src/acr/audit.py:1003-1073 | Silent exactly when one block binds the comparison, the payload of one state check tells it field by field, and its historical and current bytes are held and agree with its status |
| `DecisionViewAudit.StoredViewRebuilds` | src/acr/audit.py:986-1002 | A view accepted while the run was going on, stored, and audited after the run is finished, is clean: the rebuild gives the same view |
| `Visibility.PrefixOnly` | src/acr/visibility.py:88-166 | For any recorder log and any prefix past the cutoff, the view is accepted against the prefix exactly when it is against the whole log, and is the same view |
| `Visibility.FutureIrrelevant` | src/acr/visibility.py:45-166 | Two logs equal up to the cutoff accept the same views |
| `Visibility.ViewExactly` | src/acr/visibility.py:88-166 | A view is accepted if and only if every block is visible and every comparison checked; it then carries exactly the given blocks, comparisons, cutoff, draft digest, policy, id, run and producer, and the one runtime label of that run and cutoff |
| `Visibility.ViewVisible` | src/acr/visibility.py:23-166 | Every block of an accepted view is complete, of its producer and on authorized evidence, and is a public constant or comes from the one completed event of the run it names, at or before the cutoff |
| `Visibility.AcceptedChecked` | src/acr/visibility.py:110-150 | Every comparison of an accepted view is made by its cutoff on authorized evidence, bound by one block of the view and backed by one state check of the run at its own number |
| `SmokeLoop.RunAddSmoke` | src/acr/runtime/runner.py:466-603 | The bounded loop, from any runtime: request k carries exactly the first 2k+2 messages of one conversation that opens with the two constants; the calls made are, in order, those the answers ask for, and every read shown is the text the file then had; the workspace and the sealed files hold the last text written; it is completed exactly when a write was asked for, and the log ends saying so; each read result is a binding; what it seals passes the audit exactly when the runtime had sent nothing before; it is stopped exactly at a refused content, named with the one held |
| `SmokeLoop.CommandExactly` | src/acr/runtime/runner.py:571-594 | Which tool an answer runs: without its surrounding white space it is exactly the read command, the test command, or the write command followed by the text to write, and otherwise the loop ends |
| `SmokeLoop.AsksExactly` | src/acr/runtime/runner.py:558-594 | A call is asked for exactly by a response whose content is its command |
| `SmokeLoop.LoopTells` | src/acr/runtime/runner.py:514-598 | The model is told the truth: every tool message shows what the call gave, a read the text the file then had, and the loop leaves the last text written |
| `SmokeLoop.SmokeTells` | src/acr/runtime/runner.py:466-603 | A smoke run that ended told the model the truth, sealed the last text written, and its stop event says completed exactly when a response was seen and a write asked for |
| `SmokeLoop.RunLoop` | src/acr/runtime/runner.py:514-598 | The loop goes exactly as its course says, step by step |
| `SmokeLoop.TakeStep` | src/acr/runtime/runner.py:515-598 | One request and the tool call its response asks for |
| `SmokeLoop.Ask` | src/acr/runtime/runner.py:519-557 | One request carries every message so far, in order, and its response joins the conversation |
| `SmokeLoop.Obey` | src/acr/runtime/runner.py:558-598 | One command runs one tool, whose result joins the conversation; a tool that fails ends the loop |
| `SmokeLoop.SmokeKeeps` | src/acr/runtime/runner.py:466-603 | A smoke run that ends has made the requests, replies, writes and bindings its answers determine; one that breaks off has a named reason |
| `SmokeLoop.LoopKeeps` | src/acr/runtime/runner.py:514-598 | From any point the loop adds exactly the requests and replies of the answers that are left |
| `SmokeLoop.LoopBreaks` | src/acr/runtime/runner.py:514-598 | The loop raises only for a missing target file, a body the store refuses, or a sandbox answer that is no JSON |
| `SmokeLoop.SmokeCleanExactly` | src/acr/runtime/runner.py:516-527 | The loop numbers its request ids from zero while the runtime numbers attempts from where it is: the sealed smoke run passes the audit exactly when the runtime had sent nothing before |
| `SmokeLoop.CleanBlocksNamed` | src/acr/audit.py:745-756 | In a clean run the blocks of a snapshot name that snapshot's request |
| `UsageLedger.UsageEntries` | src/acr/accounting.py:8-37 | Three entries for each attempt in order, with the quantity the provider's fields give for the category when the usage is observed and referenced; totals are their sums, complete exactly when every attempt reports every category |
| `UsageLedger.TokensExactly` | src/acr/accounting.py:21-26 | Which fields feed which category: input and output under their newer names, or when those are missing under the older ones; the total under its own name, or, missing or null, the sum of a reported input and output; nothing else is a number |
| `UsageLedger.AddEntries` | src/acr/accounting.py:21-34 | The inner loop adds each category's quantity to its total and clears completeness exactly on a missing one |
| `UsageLedger.AuditUsageLedger` | src/acr/audit.py:322-368 | Silent exactly when entries cover the attempts once per category and the totals are the rebuilt ones |
| `UsageLedger.RebuildTotals` | src/acr/audit.py:346-366 | The totals rebuilt in whatever order the set of ids is walked |
| `UsageLedger.AddUsage` | src/acr/audit.py:355-366 | One attempt's contribution to the rebuilt totals |
| `UsageLedger.TotalAnyOrder` | src/acr/audit.py:346-366 | Any two listings of the same ids give the same totals |
| `UsageLedger.LedgerRebuilds` | src/acr/accounting.py:8-37 | For distinct ids and a usage reference present exactly when usage is observed, what the recorder writes is what the audit rebuilds |
| `UsageLedger.LedgerRoundTrip` | src/acr/audit.py:322-368 | Writing the ledger and auditing it against the same usages reports nothing |
| `SessionHooks.Store.PreThenResult` | src/acr/forensics/session.py:406-468 | End to end, told from the two payloads: the pre hook of a verifier command lets it through exactly when its payload and the stored session allow it and none of its writes is refused; any hooks in between and then a result hook of the same operation that reports a result, none of whose writes is refused, leave a receipt whose tested manifest is that of the repository the pre hook found |
| `SessionRun.PreThenResultBinds` | src/acr/forensics/session.py:406-468 | The same, for the session as a value |
| `SessionHooks.Store.HandleClaudeHook` | src/acr/forensics/session.py:406-468 | The session is exactly the one its hooks determine. Told from the payload: unless the tool is Bash, its input an object, its command the verifier to the letter and not in the background, markers, checkpoints and receipts are as before and the code is 0; code 2 goes exactly to the pre hook of the verifier that may not succeed or has a write refused; at most one marker appears, written by such a pre hook for the operation it names, and at most one receipt, by such a result hook with the result it reports; what could not be done is one anomaly |
| `SessionRun.HandleKeeps` | src/acr/forensics/session.py:406-468 | One hook keeps the session invariant and everything stored, with the exit code, anomaly count and records stated for each case, and tears a record exactly when the blob of a record it wrote is refused |
| `SessionRun.RefusedMet` | src/acr/forensics/store.py:37-52 | A refused write names the content this hook offered and the different one its file holds under the same digest |
| `SessionHooks.Store.RunHooks` | src/acr/forensics/session.py:406-468 | Over any sequence of hooks the session is exactly the one they determine, with each hook's exit code, the invariant holds, nothing stored is lost or altered, and every marker that appears was written by a pre hook of the verifier for its operation, every receipt by a result hook of the verifier that reported its result, every checkpoint by a pre hook of the verifier |
| `SessionRun.RunKeeps` | src/acr/forensics/session.py:406-468 | Over any sequence of hooks the invariant holds and nothing stored changes, and the records are intact afterwards exactly when they were before and no hook tore one |
| `SessionHooks.Store.RunHook` | src/acr/forensics/session.py:420-456 | The guarded part does exactly the hook's deed |
| `SessionDeeds.HookDeedKeeps` | src/acr/forensics/session.py:420-456 | The hook's deed keeps the invariant and loses nothing; it does all of its work exactly when the stated checks hold and no write is refused, and its records are then on disk; an input refused before binding leaves the disk untouched; a refusal names both contents |
| `SessionHooks.Store.constructor` | src/acr/forensics/store.py:126-181 | A new session is sound and empty, and its records are intact |
| `SessionHooks.Store.RefForBytes` | src/acr/forensics/store.py:63-78 | Stored under its digest; refused exactly when other bytes are already there, which are named |
| `SessionDeeds.BlobDeedKeeps` | src/acr/forensics/store.py:63-78 | Storing a blob keeps the invariant and every stored byte; refused, it changes nothing and the offered and the held content differ under one digest |
| `SessionHooks.Store.PersistManifest` | src/acr/forensics/store.py:80-90 | The manifest becomes an artifact and then a blob, or the refusal names the content held |
| `SessionDeeds.ManifestDeedKeeps` | src/acr/forensics/store.py:80-90 | Done, the manifest is held as artifact and blob under its digest; refused, another content is |
| `SessionHooks.Store.PersistProvenance` | src/acr/forensics/store.py:103-124 | The provenance record under a fresh identity and then its blob, or the refusal that stopped it |
| `SessionDeeds.ProvenanceDeedKeeps` | src/acr/forensics/store.py:103-124 | Provenance over verified inputs satisfies the audit for any inputs among those it cites |
| `SessionHooks.Store.ReserveSequence` | src/acr/forensics/store.py:265-276 | The next number, stored before it is used |
| `SessionHooks.Store.BindExternalSession` | src/acr/forensics/store.py:216-227 | The first external session bound stays; any other is refused |
| `SessionHooks.Store.PersistAnomaly` | src/acr/forensics/store.py:239-252 | One anomaly more, and no record touched |
| `SessionHooks.Store.EventFromObservation` | src/acr/forensics/session.py:230-275 | Number, observation, provenance, record and blob of the event in that order, or what stands when one is refused |
| `SessionDeeds.EventDeedKeeps` | src/acr/forensics/session.py:230-275 | Done, exactly one new event record holding this observation, with the number just reserved and its blob; refused at the last write, exactly that record is torn; refused earlier, no record is touched |
| `SessionHooks.Store.StoreFiles` | src/acr/forensics/checkpoint.py:245-275 | Every present file's bytes are stored in order, up to the first refusal |
| `SessionHooks.Store.StoreCapture` | src/acr/forensics/checkpoint.py:275-310 | The file bytes, the canonical manifest and the capture note are stored, or what stands when that cannot be done |
| `SessionDeeds.CaptureDeedKeeps` | src/acr/forensics/checkpoint.py:241-310 | Done, the file bytes, the canonical manifest and the capture note are held; declined, the repository has no canonical manifest |
| `SessionHooks.Store.CaptureCheckpoint` | src/acr/forensics/checkpoint.py:201-392 | The checkpoint of a found repository, or what stands when a write is refused |
| `SessionDeeds.CheckpointDeedKeeps` | src/acr/forensics/checkpoint.py:201-392 | Done, a new checkpoint whose manifest hash is that of the repository found, numbered after everything before it, with its blob |
| `SessionHooks.Store.PersistVerifierPreState` | src/acr/forensics/session.py:278-311 | The checkpoint and then the marker of the operation, or what stands when that cannot be done |
| `SessionDeeds.PreDeedKeeps` | src/acr/forensics/session.py:278-311 | Done, event, checkpoint and captured state are tied in the one marker of the operation; declined, the operation is unnamed or not root-scoped or has a marker, or the repository has no canonical manifest |
| `SessionHooks.Store.PersistPending` | src/acr/forensics/store.py:282-283 | A marker is written once per operation and never replaced |
| `SessionHooks.Store.PersistVerifierResult` | src/acr/forensics/session.py:314-403 | The receipt of a result that fits its marker and checkpoint, or the existing one |
| `SessionDeeds.ResultDeedKeeps` | src/acr/forensics/session.py:314-403 | Done, the operation has its receipt; declined, the result is not root-scoped, unnamed or without marker; at most one receipt appears, under the operation's own id |
| `SessionHooks.Store.WriteReceipt` | src/acr/forensics/session.py:345-403 | Provenance, number, record and blob of the receipt in that order, or what stands when one is refused |
| `SessionDeeds.ReceiptDeedKeeps` | src/acr/forensics/session.py:345-403 | The receipt is sound when its record is written, with its number after pre-event, checkpoint and result event; refused at its blob, exactly that record is torn |
| `SessionInvariant.ReceiptBinding` | src/acr/forensics/session.py:278-403 | In every sound session each receipt's tested manifest is the canonical manifest of the state its own operation's pre hook captured, same session and external session, pass exactly on exit code zero, pre-event before checkpoint before receipt and result event before receipt |
| `SessionInvariant.OneReceiptPerOperation` | src/acr/forensics/session.py:345-350 | At most one receipt per operation |
| `SessionInvariant.BlobAdded` | src/acr/forensics/store.py:37-78 | Storing a blob keeps the session sound and every stored byte in place |
| `SessionWrites.NewEventSound` | src/acr/forensics/session.py:230-275 | An event written as the handler writes it is sound |
| `SessionWrites.NewCheckpointSound` | src/acr/forensics/checkpoint.py:291-392 | A checkpoint of a stored capture is sound and carries the hash of the repository found |
| `SessionWrites.NewPendingSound` | src/acr/forensics/session.py:278-311 | A marker of a stored pre-event and checkpoint is sound |
| `SessionWrites.PendingDiffers` | src/acr/forensics/store.py:37-52 | A second marker for an operation always differs from the first, so it is refused rather than accepted as equal |
| `SessionWrites.NewReceiptSound` | src/acr/forensics/session.py:314-403 | A receipt of a marker and an eligible result event is sound |
| `HookPayload.EligibleExactly` | src/acr/adapters/claude_hooks.py:41-152 | A translated payload has a trusted result exactly when it runs the verifier to the letter in the foreground and reports that result: success with code zero, or an uninterrupted failure whose first error line names a non-zero exit code |
| `HookPayload.SanitizeExactly` | src/acr/adapters/claude_hooks.py:51-152 | A payload is translated exactly when it names a supported event and a session; the translation keeps event, time, working directory, operation and tool name, hashes the session, and of a command says only whether it is the verifier |
| `HookPayload.OperationExactly` | src/acr/forensics/session.py:250-257 | The operation an event records is the one its payload names: a tool event with a known occurrence and a known tool |
| `HookPayload.ExitCodeExactly` | src/acr/adapters/claude_hooks.py:20 | The pattern on the first error line matches exactly the prefix followed by a decimal numeral, and gives the number it stands for |
| `HookPayload.ExitCodeRoundTrip` | src/acr/adapters/claude_hooks.py:20 | A printed exit code is read back |
| `HookEffects.SucceedsExactly` | src/acr/forensics/session.py:406-468 | Which hooks can do all of their work, in the payload's own terms: observed, and as a pre hook of the verifier at the root of a listable repository without a marker, as a result hook of the verifier at the root with one |
| `HookEffects.HookWritesOnly` | src/acr/forensics/session.py:406-468 | What one hook may leave: an event of its payload only if observed; a marker and a checkpoint only as the verifier's pre hook, for the operation it names; a receipt only as a result hook of the verifier, for its operation and with the result it reports |
| `HookEffects.HandleDone` | src/acr/forensics/session.py:406-468 | Code, anomaly count and records of one hook, told from its payload and the session it found |
| `HookEffects.RunWritesOnly` | src/acr/forensics/session.py:406-468 | Over any sequence of hooks every marker, checkpoint and receipt that appears has the hook of the verifier that wrote it |
| `HookEffects.ManifestHashExactly` | src/acr/forensics_contracts.py:116-160 | A captured repository has a manifest hash exactly when it has a base and lists no path twice; the same repository in any listing order has the same hash, and two with one hash are the same or exhibit two manifests with one digest |
| `SessionAudit.RecordThenAudit` | src/acr/forensics/session.py:406-736 | For a new session and any hooks, the session audit reports nothing if and only if an external session is bound, no hook had the blob of a record refused, and every known operation on an exact-verifier event has one pre-event, one result event, a marker and, when eligible, a receipt; and every marker and receipt there was written by a hook of the verifier, as its payload says |
| `SessionAudit.RunAuditExactly` | src/acr/forensics/session.py:505-736 | The same equivalence for the session the hooks determine |
| `SessionAudit.AuditExactly` | src/acr/forensics/session.py:505-736 | For every sound session: the audit is silent exactly when a session is bound, every record has its own blob, and the operations are complete |
| `SessionAudit.TornRecordRejected` | src/acr/forensics/session.py:406-736 | Completeness of operations alone does not characterise the audit: one session-start hook on a new session, under a digest that gives its event record and the producer manifest one value, leaves that record without its blob, every operation is complete, and the audit rejects the session |
| `SessionAudit.AuditSession` | src/acr/forensics/session.py:505-736 | Over arbitrary stored data, silent exactly when the stored records are true and correspond, as `SilentExactly` says |
| `SessionAudit.SilentExactly` | src/acr/forensics/session.py:505-736 | The checks of the session audit, taken together, say exactly: profile, configuration and external session; every event from a held observation of that session; every checkpoint of its held manifest; at most one pre-event, result and receipt per operation; every receipt with its marker, checkpoint, pre-event and result; and each pre-event with its marker and result, each conclusive result with its receipt |
| `SessionAudit.ReceiptsExactly` | src/acr/forensics/session.py:631-721 | The receipt checks say exactly: pass flag and exit code are those the result's observation reports; tested hash is that of the checkpoint's manifest and of the marker; the fact references cite that pre-event and that result; the number is after the result's; command and specification are the marker's; its blob and provenance are held; and no operation has two |
| `SessionAudit.EventsExactly` | src/acr/forensics/session.py:535-591 | The event checks say exactly that every event is of this session, from a held sanitized observation of its one external session, with its own blob and provenance, and that no operation has two pre-events or two results |
| `SessionAudit.CheckpointsExactly` | src/acr/forensics/session.py:592-630 | The checkpoint checks say exactly that every checkpoint is of this session, with its manifest, paths, blob and provenance held |
| `SessionAudit.CorrelatedExactly` | src/acr/forensics/session.py:722-736 | The correlation checks say exactly that pre-events, markers, result events and receipts correspond |
| `SessionAudit.AuditEvents` | src/acr/forensics/session.py:535-591 | Silent exactly when events are true, as `EventsExactly` says; the two indexes are then the true ones |
| `SessionAudit.AuditCheckpoints` | src/acr/forensics/session.py:592-630 | Silent exactly when every checkpoint is true, as `CheckpointsExactly` says |
| `SessionAudit.AuditReceipts` | src/acr/forensics/session.py:631-721 | With the true indexes of events, silent exactly when every receipt is true, as `ReceiptsExactly` says; the set returned is the operations with a receipt |
| `SessionAudit.AuditCorrelation` | src/acr/forensics/session.py:722-736 | Silent exactly when pre-events, markers, results and receipts correspond |
| `HookInterleaving.RunKeeps` | src/acr/forensics/session.py:406-468 | Every interleaving of any number of hook processes keeps the invariant, loses nothing and changes no input |
| `HookInterleaving.AdvanceKeeps` | src/acr/forensics/session.py:406-468 | One atomic step of one process keeps the invariant |
| `HookInterleaving.StoredNeverChanges` | src/acr/forensics/store.py:37-52 | Between any two points of any interleaving no stored bytes change |
| `HookInterleaving.NumbersDistinct` | src/acr/forensics/store.py:265-276 | No two records, of whatever kind, carry the same sequence number |
| `HookInterleaving.ReceiptOnce` | src/acr/forensics/session.py:345-403 | At most one receipt is ever stored per operation, although the existence test and the write are separate steps, and it never changes |
| `HookInterleaving.ReceiptBoundInEveryRun` | src/acr/forensics/session.py:278-403 | Every receipt of every interleaving is bound to the state captured by the process whose payload is the verifier's pre hook of its own operation, states the result reported by a process whose payload is a result hook of that operation, and has the sequence order pre-event, checkpoint, receipt and result event, receipt |
| `HookInterleaving.OthersWriteNothing` | src/acr/forensics/session.py:406-468 | A process whose payload is not Bash, no object, another command or in the background leaves markers, checkpoints and receipts as they are at each of its steps, and stops only with code 0 |
| `HookInterleaving.WrittenInEveryRun` | src/acr/forensics/session.py:406-468 | In every interleaving each marker was written for a pre hook of the verifier for its operation, each checkpoint for a pre hook of the verifier, each receipt for a result hook of the verifier that reported its result, and each event says what its own process's payload says |
| `HookInterleaving.MarkerWriter` | src/acr/forensics/session.py:278-311 | The process that wrote a marker is the one whose event it names; its payload is the verifier's pre hook of that operation, and it captured the state bound to it |
| `HookInterleaving.MarkerFresh` | src/acr/forensics/store.py:282-283 | A marker already there never has the bytes another process is about to write |
| `HookInterleaving.PreHookDurable` | src/acr/forensics/session.py:406-468 | A pre hook of the verifier that returns 0 has its event, checkpoint and marker on disk in every interleaving, with the hash of the repository it found; only such a payload gets code 2 |
| `HookInterleaving.ResultHookDurable` | src/acr/forensics/session.py:314-403 | A result hook that ran to its end ran the verifier and leaves a receipt of its operation, its own or another process's |
| `HookInterleaving.ReceiptFileGood` | src/acr/forensics/session.py:345-403 | The write of a receipt after a stale existence test keeps the invariant |
| `HookInterleaving.MarkerGood` | src/acr/forensics/session.py:278-311 | The write of a marker keeps the invariant, whoever else is capturing the same operation |
| `HookInterleaving.LoadGood` | src/acr/forensics/session.py:314-350 | Loading a marker, reading its checkpoint and testing for a receipt, each a step of its own, keep the invariant |
| `HookInterleaving.EventFileGood` | src/acr/forensics/session.py:230-275 | The write of an event record keeps the invariant |
| `CanonicalManifest.CanonicalIdentity` | src/acr/forensics_contracts.py:116-160 | Canonical bytes are equal exactly when the git bases are equal and the overlays are equal as maps, whatever the list order |
| `CanonicalManifest.CanonicalRead` | src/acr/forensics_contracts.py:116-160 | A reader recovers the git base and the sorted overlay from the canonical text |
| `CanonicalManifest.ManifestRead` | tools/f0_5_probe/reality_probe.py:29-36 | The reader recovers any git base and entry list from the printed text |
| `CanonicalManifest.QuotedRead` | tools/f0_5_probe/reality_probe.py:29-36 | A quoted string, escaped as in section 7 of RFC 8259, is read back whole whatever follows |
| `CanonicalManifest.SortedFormUnique` | src/acr/forensics_contracts.py:116-160 | Two sorted lists without repeated paths and with the same overlay are the same list |
| `CanonicalManifest.ProbeTextIsCanonical` | tools/f0_5_probe/reality_probe.py:89-129 | The probe's printer gives the same bytes as the canonical one |
| `RealityProbe.ExecutableRecovered` | tools/f0_5_probe/reality_probe.py:356-362 | The bit operations on 0o111 recover the executable flag and change no other permission |
| `RealityProbe.ExecutableExactly` | tools/f0_5_probe/reality_probe.py:356-358 | A file counts as executable exactly when its owner, its group or anybody else may execute it |
| `RealityProbe.ExcludedExactly` | tools/f0_5_probe/reality_probe.py:58-60 | A path is excluded exactly when it is the environment file or lies below the directories of the probe, the agent or git |
| `RealityProbe.Probe.CaptureChangeRestoreRecapture` | tools/f0_5_probe/reality_probe.py:337-440 | The first capture succeeds exactly when no two different contents of scope and store have one digest and the manifest file is free or equal; then, after any change of the files, restore and capture again give the same manifest hash and overlay; every scoped file is there exactly if it was, with its bytes and executable as before and its other permissions as the change left them, and every path outside the scope is as the change left it |
| `RealityProbe.Probe.CaptureState` | tools/f0_5_probe/reality_probe.py:68-142 | Succeeds exactly when no two different contents of scope and store have one digest and the manifest file is free or equal; the hash is then that of the printed overlay of the scope, and enough is stored to restore it |
| `RealityProbe.Probe.CaptureEntries` | tools/f0_5_probe/reality_probe.py:89-129 | Succeeds exactly when no two different contents of scope and store have one digest; the entries are then the overlay of the scope in path order, and the contents of its present files are stored and nothing else is |
| `RealityProbe.Probe.PathKinds` | tools/f0_5_probe/reality_probe.py:75-88 | Tracked paths that are not out of scope, then the selected ones |
| `RealityProbe.Probe.RestoreManifest` | tools/f0_5_probe/reality_probe.py:337-353 | Succeeds exactly when the manifest can be read and its contents are stored; then every listed path is restored and no other touched |
| `RealityProbe.RecapturedEqual` | tools/f0_5_probe/reality_probe.py:68-142 | A restored repository is captured as the original was |
| `RealityProbe.BackedRestorable` | tools/f0_5_probe/reality_probe.py:337-353 | What a capture stored is enough to restore it |
| `Checkpoint.CaptureRepository` | src/acr/forensics/checkpoint.py:201-392 | Succeeds exactly for a readable index, an observable base and safe selected paths; within each area every scoped path is then exactly one of captured entry or recorded gap, once (an ignored selected path as often as it is listed), and nothing else is either; each entry is what was read, each gap's reason is true, and the capture has a canonical manifest |
| `Checkpoint.TrackedIndex` | src/acr/forensics/checkpoint.py:84-106 | The scan keeps exactly the paths with one record, at stage zero, of mode 100644 or 100755; all other known paths are unsupported, each for its own reason; an unreadable record fails the scan |
| `Checkpoint.IndexedGrows` | src/acr/forensics/checkpoint.py:84-106 | One more record of the scan updates the two dictionaries correctly, including a path that turns up again |
| `Checkpoint.IndexGaps` | src/acr/forensics/checkpoint.py:224-225 | One gap for each unsupported path, with its own reason |
| `Checkpoint.Classify` | src/acr/forensics/checkpoint.py:219-234 | Fails exactly on an unsafe selected path; otherwise what is to be read, each path once, and a gap for each listing of an ignored path |
| `Checkpoint.CapturePaths` | src/acr/forensics/checkpoint.py:241-289 | Each path to be read becomes one entry or one justified gap, entries in path order |
| `DemoData.ChangedFiles` | scripts/build_demo_data.py:89-133 | The change list is sorted, has one entry per differing path, turns the first checkpoint's present files into the second's, and undone gives the first back |
| `DemoData.ListChanges` | scripts/build_demo_data.py:100-133 | The same, over the two path indexes |
| `DemoData.ListedExactly` | scripts/build_demo_data.py:89-133 | A path is listed exactly when the checkpoints differ on it, so the list is empty exactly when they agree on every path |
| `DemoData.SelectTransition` | scripts/build_demo_data.py:462-475 | The transition selected is the first adjacent pass-to-fail boundary in sequence order, or else a healthy run |
| `DemoData.FailureBoundaryMinimal` | scripts/build_demo_data.py:462-475 | With distinct sequences and observed results, a boundary is returned exactly when some PASS precedes some FAIL; its two receipts are adjacent and no such pair ends earlier; otherwise every FAIL precedes every PASS |
| `DemoData.BoundaryIsMinimal` | scripts/build_demo_data.py:462-475 | Minimality and adjacency of the returned boundary |
| `DemoData.NoBoundaryNoRegression` | scripts/build_demo_data.py:462-475 | Without a boundary no PASS precedes a FAIL |
| `Labels.GroupingIndependent` | src/acr/contracts.py:345-372 | Along any derivation tree, deriving step by step succeeds exactly when deriving from the flattened leaves does, with the same label |
| `Labels.NothingLost` | src/acr/contracts.py:345-372 | Along any derivation tree no taint is lost or invented, scope never loosens, an unknown sequence stays unknown and a run identity is kept |
| `Labels.DerivedAlike` | src/acr/contracts.py:345-372 | A derived label may stand for the labels it was derived from in any further derivation |
| `Labels.SeveralExactly` | src/acr/contracts.py:345-372 | Derivation is refused for mixed runs exactly when two labels name different runs |
| `Labels.DerivationTells` | src/acr/contracts.py:345-372 | Along any derivation tree: refused exactly when two leaves name different runs; otherwise the strictest scope among the leaves, the run they name, the latest sequence when all are known and unknown otherwise, and exactly their taints, sorted, each once |
| `Candidates.EvidenceMonotone` | src/acr/candidates.py:101-158 | Filling in missing evidence can change only an `unknown` verdict; rejected and candidate verdicts and their reasons are stable |
| `Candidates.CandidateExactly` | src/acr/candidates.py:101-158 | A pair is a candidate exactly when all the conditions on identity, output, completeness, changes, encoding, file hash and membership hold |
| `Candidates.ReasonTrue` | src/acr/candidates.py:101-158 | The reason of every verdict is the first true one in the declared order of reasons, and decides the status |
| `Candidates.RejectedExactly` | src/acr/candidates.py:101-158 | A pair is rejected exactly when some rejecting reason is true of it and no reason listed before that one is |
| `Candidates.VerdictUnique` | src/acr/candidates.py:101-158 | There is only one such verdict, so the evidence determines it |
| `Candidates.UnknownHasAGap` | src/acr/candidates.py:101-158 | An `unknown` verdict always has missing evidence or an unresolved change behind it |
| `Candidates.DetectDuplicates` | src/acr/candidates.py:161-194 | The single dictionary pass gives the quadratic specification: in source order, stable for equal positions, each pathed read with an earlier one of its path is compared with the latest earlier one of equal output, or else the latest, over exactly the changes strictly between, and the verdict is the first true reason of the declared order |
| `Candidates.ChosenIsPartner` | src/acr/candidates.py:170-185 | What the dictionary yields is the partner of the specification |
| `Candidates.PartnerUnique` | src/acr/candidates.py:170-185 | The specification determines the partner |
| `Candidates.DetectAndCount` | src/acr/candidates.py:161-194 | The number of assessments is the pathed reads minus the distinct paths of the history given |
| `Candidates.DetectedCount` | src/acr/candidates.py:161-194 | The same count on the sorted history |
| `Coverage.ValidateEvents` | src/acr/adapters/multi_swe_bench.py:79-102 | Accepts exactly the documents of well-formed events with distinct ids |
| `Coverage.NormalizedInside` | src/acr/adapters/multi_swe_bench.py:46-52 | A normalized path is relative, has no parent component, and normalizing it again inside the workspace gives it back |
| `Coverage.NormalizeExactly` | src/acr/adapters/multi_swe_bench.py:46-52 | What a path is normalized to: below the workspace, with at least two more components and no parent among them, what follows the first of the two; otherwise nothing |
| `Coverage.IndexResults` | src/acr/adapters/multi_swe_bench.py:142-146 | The index of results by cause lists, in order, the events that name it |
| `Coverage.ReadOne` | src/acr/adapters/multi_swe_bench.py:154-195 | A read action is kept with exactly what its single matching result proves |
| `Coverage.AdaptedExactly` | src/acr/adapters/multi_swe_bench.py:148-195 | A read action is kept exactly when one read result names it and lists the very path in full, and then with the digest, size and completeness that result shows and references to the two events |
| `Coverage.Adapt` | src/acr/adapters/multi_swe_bench.py:148-227 | Every event that is a read action is kept or counted as unsupported, never both; kept reads are what the adapter makes of their own actions, in order; there is one change for each edit or command |
| `Coverage.ArchiveNeverCandidate` | src/acr/coverage.py:340 | No pair of archive reads can be a candidate, whatever lies between: the fixed verdict agrees with the strict count of zero |
| `Coverage.AssessTrajectory` | src/acr/coverage.py:195-241 | For every accepted event list, kept plus unsupported reads are the read actions and every assessment is rejected or unknown |
| `Coverage.AssessmentCounts` | src/acr/coverage.py:133-149 | The status counts of a trajectory sum to its assessments |
| `Coverage.StatusesPartition` | src/acr/coverage.py:133-149 | The three statuses partition any list of assessments |
| `Coverage.TotalsConserved` | src/acr/coverage.py:186-289 | Over the repositories, each once, the totals add up to the global ones |
| `Coverage.CountRepositories` | src/acr/coverage.py:188-234 | The counters held per repository are that repository's totals, for exactly the repositories with rows, and the global ones those of all rows |
| `Coverage.Accumulate` | src/acr/coverage.py:186-289 | The distribution is in name order, with an entry for exactly the repositories with rows; each entry counts its repository's rows and sums their fields, and they sum to the global metrics, which count all rows |
| `Coverage.TotalsExactly` | src/acr/coverage.py:186-289 | The totals count the rows and sum each of their fields, the global ones over all rows, a repository's over its own |

## Left out

- ViewExactly: says when a view is accepted and what it then holds; which violation a rejected view names first is not stated.
- RunTold: goes from silence to what is stored; the other direction is stated for the log, the tool calls and each binding, and for all of it by `RuntimeAudit.RunClean`, which is on the auditor's own terms.
- ComparisonExactly: bindings are always of a whole file and paths are keys of the workspace, so the range of a binding and the spelling of its path are not modelled.
- RunAddSmoke: says of the sealed run that the audit of log, requests, bindings and ledger passes exactly from a fresh runtime; its states are those of any sealed run (`RuntimeRun.StatesPass`).
- AuditExactly: over arbitrary stored data `SessionAudit.AuditSession` states the condition instead; intact records are a condition on the disk here and on the run's hooks in `SessionAudit.RunAuditExactly`.
- AuditWhole: says when nothing is reported; which code is reported is stated only for the attempt inventory (`RuntimeAudit.AuditInventory`).
- CapturedRuntime.constructor: for a manifest, configuration, tree and state of which no two differ under one digest, as the code raises otherwise.
- RecordEvent: a refused content ends the modelled run, because the code then raises out of the operation and the run is not continued.
- FailureBoundaryMinimal: for distinct sequences and observed results; `SelectTransition` has no such condition.
- CaptureChangeRestoreRecapture: the git base, index and selection stay as they were, and files are a flat map from path to regular file; directories, symbolic links and a file in the place of a parent directory are not modelled.
- SealedExactly: the order of a directory walk and the permission bits of the files are inputs, and a workspace is a flat map from path to text.
- UsageLedger: token quantities are reals, so floating-point rounding of sums is not modelled; cost amounts, which are always unknown, are left out.
- Other audits: evaluation, run pair and pinned import are long lists of field equalities.
- Journals and timestamps: written by the recorder and read by none of the audits modelled.
- Observed image digest, capabilities other than the verified workspace, and the fields of `run.json` that no audit reads.
- JSON text other than the canonical manifest: documents stand for their own text; payload keys the audits do not read (`encoding`, `resolved_path`, `read_mode`, `returncode`, exception names) are left out.
- UTF-8: strings are sequences of characters, and bytes that are not text appear only as a reader that gives nothing.
- SHA-256, git, the sandbox, the HTTP transport, the sensitivity policy and the line-number pattern of a listing: function parameters and inputs.
- Files stored by a capture that then cannot be finished because a file cannot be read: such a capture is taken to fail before its first write.
- Crashes in the middle of one file write, and the file locks themselves: a write is one step, a process that is never scheduled again has crashed, and a locked section is one step.
- Starting the assistant, settings files, command lines, raw transcripts, case export, HTML and Markdown rendering: plumbing and presentation.
- Coverage examples and observed token totals of the archive report: selections and sums that nothing else depends on.
