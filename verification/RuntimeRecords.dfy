/** What a captured run persists, and what of its JSON the audit reads back. */
module RuntimeRecords {
  import opened Ordering
  import opened Labels
  import opened Evidence
  import opened UsageLedger

  /** `str.isspace` of one character. */
  predicate Space(c: char) {
    var n := c as int;
    9 <= n <= 13 || 28 <= n <= 32 || n == 0x85 || n == 0xA0 || n == 0x1680 || 0x2000 <= n <= 0x200A || n == 0x2028 || n == 0x2029 ||
    n == 0x202F || n == 0x205F || n == 0x3000
  }

  // ---- Event payloads ----

  datatype Key =
    | AttemptIdKey | BeforeKey | PreparedKey | SentKey | TransportKey | LogicalKey | ResponseKey | FailureKey | UsageRefKey
    | UsageKey | ProviderRequestKey | ToolKey | PathKey | BodyKey | ShaKey | CompleteKey | ErrorKey | BindingKey
    | HistoricalShaKey | CurrentRefKey | CurrentShaKey | StatusKey | OtherKey(text: string)
  datatype Tool = ReadTool | WriteTool | TestTool | OtherTool(text: string)
  datatype Value =
    | Nil | Id(name: Name) | Words(text: string) | Flag(on: bool) | ToolValue(tool: Tool) | RefValue(ref: Ref)
    | FactValue(fact: UsageFact) | StatusValue(status: ComparisonStatus) | OtherValue(json: string)
  type Fields = map<Key, Value>

  /** `payload.get(key)`. */
  function At(fields: Fields, key: Key): Value { if key in fields then fields[key] else Nil }

  /** `json.loads` of an artifact. */
  datatype Parsed = NotJson | NullJson | OtherJson | Object(fields: Fields)

  // ---- Repository states ----

  /** One file of a workspace tree, and the same file with the reference to its sealed bytes. */
  datatype TreeFile = TreeFile(path: string, mode: nat, sha: Hash)
  datatype SealedFile = SealedFile(file: TreeFile, body: Ref)

  /** `RepositoryState`: `treeHash` is the hash its phase records. */
  datatype StatePhase = InitialPhase | FinalPhase
  datatype RepoState = RepoState(
    phase: StatePhase, run: string, producer: Ref, tree: Option<Ref>, treeHash: Hash, observed: nat, files: seq<FileBinding>, verified: bool)

  /** Stored bytes; a document stands for its own JSON text, `TreeText` for the compact text a tree is hashed as. */
  datatype Blob =
    | Bytes(text: string) | PayloadBytes(fields: Fields) | EventLogBytes(events: seq<Event>) | ManifestBytes(manifest: Fields)
    | TreeBytes(tree: seq<TreeFile>) | TreeText(hashed: seq<TreeFile>) | SealedBytes(sealed: seq<SealedFile>) | StateBytes(state: RepoState)

  /** A chat message of a request body, as the audit reads it; a role or content that is no string is `None`. */
  datatype Message = NotObject | Message(role: Option<string>, content: Option<string>)

  /** SHA-256 and the JSON readers, as arbitrary functions. */
  datatype Codec = Codec(
    digest: Blob -> Hash,
    parse: string -> Parsed,
    messages: string -> Option<seq<Message>>,
    content: string -> Option<string>,
    usage: string -> Option<Usage>,
    redumped: string -> Option<string>,
    shown: Value -> string,
    document: Blob -> Parsed,
    treeHash: Blob -> Option<Hash>,
    sealed: Blob -> Option<seq<SealedFile>>,
    state: Blob -> Option<RepoState>)

  function ParsedBlob(c: Codec, b: Blob): Parsed {
    match b
    case Bytes(t) => c.parse(t)
    case PayloadBytes(fields) => Object(fields)
    case ManifestBytes(fields) => Object(fields)
    case _ => c.document(b)
  }

  /** `tree_manifest_hash` of the JSON object a document holds. */
  function TreeHashOf(c: Codec, b: Blob): Option<Hash> {
    match b
    case TreeBytes(tree) => Some(c.digest(TreeText(tree)))
    case TreeText(tree) => Some(c.digest(TreeText(tree)))
    case _ => c.treeHash(b)
  }

  function SealedOf(c: Codec, b: Blob): Option<seq<SealedFile>> { if b.SealedBytes? then Some(b.sealed) else c.sealed(b) }
  function StateOf(c: Codec, b: Blob): Option<RepoState> { if b.StateBytes? then Some(b.state) else c.state(b) }

  function MessagesOf(c: Codec, b: Blob): Option<seq<Message>> { if b.Bytes? && b.text != "" then c.messages(b.text) else None }
  function ContentOf(c: Codec, b: Blob): Option<string> { if b.Bytes? then c.content(b.text) else None }
  function UsageOf(c: Codec, b: Blob): Option<Usage> { if b.Bytes? then c.usage(b.text) else None }
  function RedumpedOf(c: Codec, b: Blob): Option<string> { if b.Bytes? then c.redumped(b.text) else None }
  function Shown(c: Codec, v: Value): string { if v.Words? then v.text else c.shown(v) }

  // ---- Requests and physical attempts ----

  datatype Snapshot = Snapshot(
    id: Name, producer: Ref, runId: string, logicalCall: Name, attempt: Name, cutoff: nat, before: Ref,
    prepared: Option<Ref>, sent: Option<Ref>, blocks: seq<ContextBlock>, config: Ref, status: string,
    providerRequest: Option<string>)

  /** What a physical record claims: nothing yet, a response, or a transport exception. */
  datatype Outcome = OnlyEntered | Responded(response: Ref) | Excepted(failure: Ref)
  datatype PhysicalAttempt = PhysicalAttempt(id: Name, producer: Ref, runId: string, attempt: Name, outcome: Outcome, sent: Ref)

  function PhaseOf(p: PhysicalAttempt): Phase { if p.outcome.OnlyEntered? then Entered else Terminal }

  datatype Run = Run(id: string, task: string, producer: Ref, config: Ref, eventsRef: Ref)

  /** The artifacts of one run below the data root. */
  datatype RunFiles = RunFiles(
    blobs: map<Hash, Blob>, run: Run, producer: Ref, events: seq<Event>, snapshots: seq<Snapshot>, bindings: seq<FileBinding>,
    physical: seq<PhysicalAttempt>, entries: seq<CostEntry>, aggregate: Aggregate, finalFiles: seq<FileBinding>)

  /** `_load_ref_blob`. */
  function Loaded(c: Codec, blobs: map<Hash, Blob>, r: Ref): Option<Blob> {
    if r.hash in blobs && c.digest(blobs[r.hash]) == r.hash then Some(blobs[r.hash]) else None
  }

  /** `_runtime_ref`: only evidence of this run. */
  function RunBlob(c: Codec, blobs: map<Hash, Blob>, run: string, r: Ref): Option<Blob> {
    if r.source == RuntimeSource && r.key == run then Loaded(c, blobs, r) else None
  }

  /** The reference is the run's own, and under it these very bytes are stored, whole. */
  ghost predicate Owns(c: Codec, blobs: map<Hash, Blob>, run: string, r: Ref, b: Blob) {
    r.source == RuntimeSource && r.key == run && r.hash in blobs && blobs[r.hash] == b && c.digest(b) == r.hash
  }

  lemma OwnsExactly(c: Codec, blobs: map<Hash, Blob>, run: string, r: Ref)
    ensures forall b :: RunBlob(c, blobs, run, r) == Some(b) <==> Owns(c, blobs, run, r, b)
  {
  }

  predicate SameOccurrence(a: Ref, b: Ref) { a.hash == b.hash && a.source == b.source && a.key == b.key && a.locator == b.locator }

  function ProtocolKey(): string { "deepseek_command_protocol_v1" }
  function ReadContent(path: string, text: string): string { "TOOL RESULT read_file " + path + ":\n" + text }
  function WriteContent(): string { "TOOL RESULT write_file completed" }
  function TestContent(dumped: string): string { "TOOL RESULT run_test: " + dumped }
  function TransportReason(): string { "transport_exception_before_response" }
  function NoUsageReason(): string { "provider_did_not_report_usage" }
}
