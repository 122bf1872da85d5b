/** The runtime's records: names, references, events, context blocks and decision views. */
module Evidence {
  import opened Ordering
  import opened Labels

  type Hash = string

  datatype Phase = Entered | Terminal

  /** Identifiers. A constructor stands for each of the runtime's own formats, `Text` for every other string. */
  datatype Name =
    | Text(text: string)
    | EventName(run: string, number: nat) | AttemptName(run: string, n: nat) | ToolName(run: string, n: nat)
    | RequestName(attempt: Name) | BlockName(request: Name, index: nat) | OccurrenceName(request: Name, index: nat)
    | PhysicalName(attempt: Name, phase: Phase) | SystemConstant | TaskConstant(task: string) | AuditView(request: Name)

  datatype Source = RuntimeSource | ConfigSource | PublicTaskSource | OtherSource(text: string)
  datatype Part = BeforeBody | PreparedBody | SentBody | ResponseBody | FailureBody
  datatype Locator =
    | EventPayload(number: nat) | AttemptPart(attempt: Name, part: Part) | ToolBody(call: Name)
    | StateCheckFile(number: nat, path: string) | UsageField | SystemPromptAt | InstructionAt | EventLog | ProducerManifest
    | ConfigAt | InitialTreeAt | FinalTreeAt | InitialStateAt | FinalStateAt | SealedArtifactAt | SealedFileAt(path: string)
    | OtherLocator(text: string)

  datatype Ref = Ref(hash: Hash, source: Source, key: string, locator: Locator, labels: seq<Label>)

  datatype EventKind =
    | RequestEvent | ResponseEvent | FailureEvent | ToolStart | ToolFinish | StateCheck | RunStop | OtherEvent
  datatype Event = Event(
    id: Name, producer: Ref, runId: string, number: nat, kind: EventKind, callId: Option<Name>, payload: Ref,
    availableSeq: Option<nat>, ended: bool)

  datatype FileBinding = FileBinding(path: string, sha: Hash, encoding: string, readEvent: Name, observedSeq: nat, complete: bool)

  datatype BlockType = SystemPrompt | TaskInstruction | AssistantResponse | ToolResult | OtherBlock
  datatype Pointer = MessageContent(index: nat) | OtherPointer(text: string)
  datatype ContextBlock = ContextBlock(
    id: Name, producer: Ref, provenance: Option<Ref>, requestId: Name, occurrence: Name, origin: Name, role: string,
    kind: BlockType, toolCall: Option<Name>, pointer: Pointer, contentHash: Hash, complete: bool, binding: Option<FileBinding>)

  datatype ComparisonStatus = Same | Changed | Unknown(reason: string)
  datatype FileComparison = FileComparison(
    bindingRef: Ref, currentSha: Option<Hash>, currentRef: Option<Ref>, checkedSeq: nat, status: ComparisonStatus)

  datatype DecisionView = DecisionView(
    id: Name, producer: Ref, runId: string, cutoffSeq: nat, draftHash: Hash, blocks: seq<ContextBlock>,
    comparisons: seq<FileComparison>, policy: string, labels: seq<Label>)

  /** The labels an event lends to what it produced: its run, its availability, its payload's taints. */
  function EventLabel(e: Event): seq<Label> {
    [Label(Runtime, Some(e.runId), e.availableSeq, SortedKeys(TaintsOf(e.payload.labels)))]
  }

  function PublicLabel(): seq<Label> { [Label(Public, None, None, [])] }

  /** `ingest_runtime_bytes` labels what it stores with the run, and no sequence. */
  function RunLabel(run: string): seq<Label> { [Label(Runtime, Some(run), None, [])] }
}
