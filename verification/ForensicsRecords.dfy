/** Records of one forensics session, the hook payload translation, and what is on disk. */
module ForensicsRecords {
  import opened Ordering
  import opened CanonicalManifest

  type Hash = string

  // ---- Evidence references ----

  datatype Category = Events | Checkpoints | Receipts | ProvenanceRecords
  datatype Id = EventId(n: nat) | CheckpointId(n: nat) | ProvenanceId(n: nat) | ReceiptId(operation: string) | OtherId(text: string)
  datatype Source =
    | HookSanitized | RecordSource | ManifestSource | ProducerSource | ConfigSource | CapturedFileSource | CaptureSource
    | OtherSource(text: string)
  datatype Locator =
    | HookObservation(sequence: nat) | RecordAt(category: Category, id: Id) | ManifestAt(hash: Hash) | FileAt(path: string)
    | CaptureAt(operation: string) | ProducerAt | ConfigAt | OtherAt(text: string)
  datatype Ref = Ref(hash: Hash, source: Source, session: string, locator: Locator)

  /** `occurrence_identity`: where the evidence is, whatever its bytes. */
  function Occurrence(r: Ref): (Source, string, Locator) { (r.source, r.session, r.locator) }

  // ---- Hook payloads and observations ----

  datatype HookEvent = SessionStart | PreToolUse | PostToolUse | PostToolUseFailure | SessionEnd

  /** The fields of a hook payload the handler looks at; `None` also stands for a value of the wrong type. */
  datatype Payload = Payload(
    event: Option<HookEvent>, sessionId: Option<string>, cwdScope: string, toolName: Option<string>,
    toolUseId: Option<string>, inputIsObject: bool, command: Option<string>, background: Option<bool>,
    isInterrupt: bool, errorFirstLine: Option<string>, observedAt: int)

  datatype Operation = Operation(occurrence: string, name: string)
  datatype CommandClass = ExactVerifier | OtherCommand | NoCommand
  datatype Termination = Success | Interrupted | Unclassified | Exited
  datatype Observation = Observation(
    event: HookEvent, externalHash: Hash, cwdScope: string, operation: Option<Operation>, commandClass: CommandClass,
    termination: Option<Termination>, exitCode: Option<int>, observedAt: int)

  predicate IsExactVerifier(p: Payload, verifier: string) {
    p.toolName == Some("Bash") && p.inputIsObject && p.command == Some(verifier) && p.background != Some(true)
  }

  predicate IsToolEvent(e: HookEvent) { e == PreToolUse || e == PostToolUse || e == PostToolUseFailure }

  predicate IsResultEvent(e: HookEvent) { e == PostToolUse || e == PostToolUseFailure }

  function DigitsValue(s: string, acc: nat): Option<nat> {
    if s == "" then Some(acc)
    else if '0' <= s[0] <= '9' then DigitsValue(s[1..], 10 * acc + (s[0] as int - '0' as int))
    else None
  }

  function ExitCodePrefix(): string { "Exit code " }

  /** `Exit code ([0-9]+)`, the whole line. */
  function ExitCodeOf(line: string): Option<nat> {
    if ExitCodePrefix() <= line && |line| > |ExitCodePrefix()| then DigitsValue(line[|ExitCodePrefix()|..], 0) else None
  }

  function TerminationOf(p: Payload, e: HookEvent): (Option<Termination>, Option<int>) {
    match e
    case PostToolUse => (Some(Success), Some(0))
    case PostToolUseFailure =>
      if p.isInterrupt then (Some(Interrupted), None)
      else
        (match ExitCodeOf(if p.errorFirstLine.Some? then p.errorFirstLine.value else "")
         case None => (Some(Unclassified), None)
         case Some(code) => (Some(Exited), Some(code)))
    case _ => (None, None)
  }

  function KnownOr(text: Option<string>): string {
    if text.Some? && text.value != "" then text.value else "unknown"
  }

  /** `sanitize_claude_hook_payload`; `None` is its `ValueError`. */
  function Sanitize(p: Payload, verifier: string, hashText: string -> Hash): Option<Observation> {
    if p.event.None? || p.sessionId.None? || p.sessionId.value == "" then None
    else
      var e := p.event.value;
      var exact := IsExactVerifier(p, verifier);
      var tool := IsToolEvent(e);
      var end := if tool && exact then TerminationOf(p, e) else (None, None);
      Some(Observation(
        e, hashText(p.sessionId.value), p.cwdScope,
        if tool then Some(Operation(KnownOr(p.toolUseId), KnownOr(p.toolName))) else None,
        if tool && p.toolName == Some("Bash") && p.inputIsObject then (if exact then ExactVerifier else OtherCommand) else NoCommand,
        end.0, end.1, p.observedAt))
  }

  /** The operation an event records: present only when both of its names are known. */
  function RecordedOperation(o: Observation): Option<Operation> {
    if o.operation.Some? && o.operation.value.occurrence != "unknown" && o.operation.value.name != "unknown"
    then o.operation else None
  }

  /** `_trusted_terminal_result`. */
  function TrustedResult(o: Observation): Option<(bool, int)> {
    if o.termination == Some(Success) && o.exitCode == Some(0) then Some((true, 0))
    else if o.termination == Some(Exited) && o.exitCode.Some? && o.exitCode.value != 0 then Some((false, o.exitCode.value))
    else None
  }

  // ---- Records ----

  datatype Provenance = Provenance(id: Id, producer: Ref, output: Id, inputs: seq<Ref>, config: Option<Ref>)
  datatype AgentEvent = AgentEvent(
    id: Id, session: string, producer: Ref, provenance: Option<Ref>, sequence: nat, timestamp: int, kind: HookEvent,
    operation: Option<Operation>, source: Option<Ref>)
  datatype CapturedPath = CapturedPath(
    path: string, kind: PathKind, state: PathState, executable: Option<bool>, stateRef: Ref, contentRef: Option<Ref>)
  datatype Checkpoint = Checkpoint(
    id: Id, session: string, producer: Ref, provenance: Option<Ref>, sequence: nat, gitBase: string,
    manifestHash: Hash, manifestRef: Ref, paths: seq<CapturedPath>)
  datatype Receipt = Receipt(
    id: Id, session: string, producer: Ref, provenance: Option<Ref>, specHash: Hash, configRef: Option<Ref>,
    checkpointId: Id, testedHash: Hash, command: string, passed: bool, passedRefs: seq<Ref>, exitCode: int,
    exitCodeRefs: seq<Ref>, startedAt: int, startedRefs: seq<Ref>, finishedAt: int, finishedRefs: seq<Ref>,
    sequence: Option<nat>, operation: Option<Operation>)
  datatype Pending = Pending(
    checkpointId: Id, checkpointRef: Ref, command: string, externalHash: Hash, preEventId: Id, preEventRef: Ref,
    preSequence: nat, session: string, startedAt: int, testedHash: Hash, toolUseId: string, specHash: Hash)

  /** The manifest entry of a captured path. */
  function EntryOf(c: CapturedPath): Entry {
    Entry(if c.contentRef.Some? then Some(c.contentRef.value.hash) else None, c.executable, c.path, c.kind, c.state)
  }

  function EntriesOf(cs: seq<CapturedPath>): seq<Entry> { seq(|cs|, i requires 0 <= i < |cs| => EntryOf(cs[i])) }

  /** Everything that is ever hashed. Documents stand for their own JSON text. */
  datatype Content =
    | ObservationDoc(observation: Observation, sequence: nat)
    | ProvenanceDoc(provenance: Provenance)
    | EventDoc(event: AgentEvent)
    | CheckpointDoc(checkpoint: Checkpoint)
    | ReceiptDoc(receipt: Receipt)
    | ManifestDoc(text: string)
    | FileDoc(bytes: string)
    | CaptureDoc(gitBase: string, manifestHash: Hash, pathCount: nat)
    | ProducerDoc
    | VerifierSpecDoc(command: string)

  /** One workspace file as the capture loop found it. */
  datatype FoundFile = FoundFile(path: string, kind: PathKind, bytes: Option<string>, executable: bool)
  /** A repository as the capture loop found it. */
  datatype Found = Found(gitBase: string, files: seq<FoundFile>)

  /** The manifest entry the found file has, given where its bytes hash to. */
  function FoundEntry(digest: Content -> Hash, f: FoundFile): Entry {
    if f.bytes.Some? then Entry(Some(digest(FileDoc(f.bytes.value))), Some(f.executable), f.path, f.kind, Present)
    else Entry(None, None, f.path, f.kind, Deleted)
  }

  function FoundEntries(digest: Content -> Hash, fs: seq<FoundFile>): seq<Entry> {
    seq(|fs|, i requires 0 <= i < |fs| => FoundEntry(digest, fs[i]))
  }

  /** The hash of the canonical manifest of a found repository, when it has one. */
  function FoundManifestHash(digest: Content -> Hash, f: Found): Option<Hash> {
    match CanonicalText(f.gitBase, FoundEntries(digest, f.files))
    case Ok(text) => Some(digest(ManifestDoc(text)))
    case Err(_) => None
  }

  datatype Metadata = Metadata(
    session: string, verifier: string, specHash: Hash, producerRef: Ref, configRef: Ref, validatedProfile: bool,
    repoIdentity: Hash)

  /** The files of one session below the data root. */
  datatype Disk = Disk(
    blobs: map<Hash, Content>, manifests: map<Hash, Content>, external: Option<Hash>, sequence: nat,
    events: map<Id, AgentEvent>, checkpoints: map<Id, Checkpoint>, receipts: map<Id, Receipt>,
    provenance: map<Id, Provenance>, pending: map<string, Pending>, anomalies: nat)

  ghost predicate MapGrows<K, V>(a: map<K, V>, b: map<K, V>) {
    forall k :: k in a ==> k in b && b[k] == a[k]
  }

  /** Nothing that was stored has been lost or altered. */
  ghost predicate Grows(a: Disk, b: Disk) {
    && MapGrows(a.blobs, b.blobs) && MapGrows(a.manifests, b.manifests)
    && (a.external.Some? ==> b.external == a.external) && a.sequence <= b.sequence
    && MapGrows(a.events, b.events) && MapGrows(a.checkpoints, b.checkpoints) && MapGrows(a.receipts, b.receipts)
    && MapGrows(a.provenance, b.provenance) && MapGrows(a.pending, b.pending)
  }

  lemma GrowsTransitive(a: Disk, b: Disk, c: Disk)
    requires Grows(a, b) && Grows(b, c)
    ensures Grows(a, c)
  {
  }
}
