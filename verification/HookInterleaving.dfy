/** Any number of hook processes of one session, interleaved at their file operations. */
module HookInterleaving {
  import opened Ordering
  import opened CanonicalManifest
  import opened ForensicsRecords
  import opened SessionInvariant
  import opened SessionWrites
  import opened HookPayload
  import opened HookEffects

  /** Where a hook process is. The names say what the process has done so far. */
  datatype Stage =
    | Ready | Bound | Numbered | Sourced | ProvenanceFiled | Provenanced | EventFiled | EventStored
    | ManifestFiled | ManifestBlobbed | CaptureNoted | CheckpointProvenanceFiled | CheckpointProvenanced
    | CheckpointNumbered | CheckpointFiled | CheckpointBlobbed | Paired
    | MarkerLoaded | CheckpointRead | Unreceipted | ReceiptProvenanceFiled | ReceiptProvenanced | ReceiptNumbered | ReceiptFiled | Receipted
    | Stopped(code: int)

  /** One process: its input, its stage, the numbers it reserved, and how many captured files it has stored. */
  datatype Process = Process(input: HookInput, stage: Stage, n: nat, m: nat, stored: nat)

  datatype Purpose = ForEvent | ForCheckpoint | ForReceipt

  /** The session directory, the processes, and two histories: which process reserved which number for what, and the
      repository each pre hook captured. */
  datatype System = System(disk: Disk, processes: map<nat, Process>, reserved: map<nat, (nat, Purpose)>, captures: map<string, Found>)

  /** The fixed part: the session's setting, and the hash of a session identity. */
  datatype World = World(s: Setting, hashText: string -> Hash)

  function Observed(w: World, i: HookInput): Option<Observation> {
    if i.Hook? then Sanitize(i.payload, w.s.meta.verifier, w.hashText) else None
  }

  function Op(w: World, i: HookInput): Option<Operation> {
    if Observed(w, i).Some? then RecordedOperation(Observed(w, i).value) else None
  }

  predicate Exact(w: World, i: HookInput) { i.Hook? && IsExactVerifier(i.payload, w.s.meta.verifier) }

  /** The exception branch of the handler: code 2 only for a pre hook of the verifier. */
  function RaiseCode(w: World, i: HookInput): int { if IsExactPre(w.s, i) then 2 else 0 }

  function Raise(w: World, sys: System, pid: nat): System
    requires pid in sys.processes
  {
    var p := sys.processes[pid];
    sys.(disk := sys.disk.(anomalies := sys.disk.anomalies + 1),
         processes := sys.processes[pid := p.(stage := Stopped(RaiseCode(w, p.input)))])
  }

  function Go(sys: System, pid: nat, stage: Stage): System
    requires pid in sys.processes
  {
    sys.(processes := sys.processes[pid := sys.processes[pid].(stage := stage)])
  }

  // ---- The atomic file operations ----

  /** Exclusive creation of a blob; a file with other bytes raises. */
  function PutBlob(w: World, sys: System, pid: nat, c: Content, next: Stage): System
    requires pid in sys.processes
  {
    var h := w.s.digest(c);
    if Conflicts(sys.disk.blobs, h, c) then Raise(w, sys, pid)
    else Go(sys.(disk := sys.disk.(blobs := sys.disk.blobs[h := c])), pid, next)
  }

  function PutProvenance(w: World, sys: System, pid: nat, v: Provenance, next: Stage): System
    requires pid in sys.processes
  {
    if Conflicts(sys.disk.provenance, v.id, v) then Raise(w, sys, pid)
    else Go(sys.(disk := sys.disk.(provenance := sys.disk.provenance[v.id := v])), pid, next)
  }

  function PutReceipt(w: World, sys: System, pid: nat, r: Receipt, next: Stage): System
    requires pid in sys.processes
  {
    if Conflicts(sys.disk.receipts, r.id, r) then Raise(w, sys, pid)
    else Go(sys.(disk := sys.disk.(receipts := sys.disk.receipts[r.id := r])), pid, next)
  }

  /** The flock-guarded allocator. */
  function Reserve(sys: System, pid: nat, purpose: Purpose, next: Stage): System
    requires pid in sys.processes
  {
    var k := sys.disk.sequence + 1;
    var p := sys.processes[pid].(stage := next);
    sys.(disk := sys.disk.(sequence := k), reserved := sys.reserved[k := (pid, purpose)],
         processes := sys.processes[pid := if purpose == ForEvent then p.(n := k) else p.(m := k)])
  }

  // ---- What a process writes; identities are drawn per process ----

  function EventProvenance(w: World, pid: nat, i: HookInput, n: nat): Provenance
    requires Observed(w, i).Some?
  {
    Provenance(ProvenanceId(2 * pid), w.s.meta.producerRef, EventId(pid), [SourceRef(w.s, Observed(w, i).value, n)], Some(w.s.meta.configRef))
  }

  function ProofOf(w: World, v: Provenance): Option<Ref> {
    Some(RecordRef(w.s, ProvenanceRecords, v.id, ProvenanceDoc(v)))
  }

  function EventOf(w: World, pid: nat, i: HookInput, n: nat): AgentEvent
    requires Observed(w, i).Some?
  {
    MakeEvent(w.s, EventId(pid), Observed(w, i).value, n, ProofOf(w, EventProvenance(w, pid, i, n)))
  }

  function TextOf(w: World, f: Found): Outcome<string> { CanonicalText(f.gitBase, FoundEntries(w.s.digest, f.files)) }

  function ManifestOf(w: World, f: Found): Content
    requires TextOf(w, f).Ok?
  {
    ManifestDoc(TextOf(w, f).value)
  }

  function ManifestRef(w: World, f: Found): Ref
    requires TextOf(w, f).Ok?
  {
    Ref(w.s.digest(ManifestOf(w, f)), ManifestSource, w.s.meta.session, ManifestAt(w.s.digest(ManifestOf(w, f))))
  }

  function CaptureNote(w: World, f: Found): Content
    requires TextOf(w, f).Ok?
  {
    CaptureDoc(f.gitBase, w.s.digest(ManifestOf(w, f)), |f.files|)
  }

  function CaptureRef(w: World, f: Found, op: string): Ref
    requires TextOf(w, f).Ok?
  {
    Ref(w.s.digest(CaptureNote(w, f)), CaptureSource, w.s.meta.session, CaptureAt(op))
  }

  function ContentRefs(w: World, files: seq<FoundFile>): seq<Ref> {
    if files == [] then []
    else (if files[0].bytes.Some?
          then [Ref(w.s.digest(FileDoc(files[0].bytes.value)), CapturedFileSource, w.s.meta.session, FileAt(files[0].path))]
          else []) + ContentRefs(w, files[1..])
  }

  function CheckpointProvenance(w: World, pid: nat, f: Found, op: string): Provenance
    requires TextOf(w, f).Ok?
  {
    Provenance(ProvenanceId(2 * pid + 1), w.s.meta.producerRef, CheckpointId(pid),
      [CaptureRef(w, f, op), ManifestRef(w, f)] + ContentRefs(w, f.files), Some(w.s.meta.configRef))
  }

  function CheckpointOf(w: World, pid: nat, f: Found, op: string, m: nat): Checkpoint
    requires TextOf(w, f).Ok?
  {
    MakeCheckpoint(w.s, CheckpointId(pid), f, m, ManifestRef(w, f), CaptureRef(w, f, op), ProofOf(w, CheckpointProvenance(w, pid, f, op)))
  }

  function ReceiptProvenance(w: World, d: Disk, pid: nat, op: string): Provenance
    requires op in d.pending && EventId(pid) in d.events
  {
    Provenance(ProvenanceId(2 * pid + 1), w.s.meta.producerRef, ReceiptId(op), ReceiptInputs(w.s, d, op, EventId(pid)), Some(w.s.meta.configRef))
  }

  function ReceiptOf(w: World, d: Disk, pid: nat, i: HookInput, m: nat, op: Operation): Receipt
    requires op.occurrence in d.pending && EventId(pid) in d.events
    requires Observed(w, i).Some? && TrustedResult(Observed(w, i).value).Some?
  {
    MakeReceipt(w.s, op.occurrence, op, d.pending[op.occurrence], d.events[EventId(pid)],
      RecordRef(w.s, Events, EventId(pid), EventDoc(d.events[EventId(pid)])),
      TrustedResult(Observed(w, i).value).value, m, ProofOf(w, ReceiptProvenance(w, d, pid, op.occurrence)))
  }

  // ---- One atomic step of one process ----

  /** From the start of a hook to its event record. */
  function AdvanceEvent(w: World, sys: System, pid: nat): System
    requires pid in sys.processes
  {
    var p := sys.processes[pid];
    if p.stage == Ready then
      if p.input.Unreadable? || p.input.Malformed? || !w.s.meta.validatedProfile ||
         p.input.repoIdentity != w.s.meta.repoIdentity || Observed(w, p.input).None? then Raise(w, sys, pid)
      else
        // The flock-guarded binding of the external session.
        var h := Observed(w, p.input).value.externalHash;
        if sys.disk.external.Some? && sys.disk.external != Some(h) then Raise(w, sys, pid)
        else Go(sys.(disk := sys.disk.(external := Some(h))), pid, Bound)
    else if p.stage == Bound then Reserve(sys, pid, ForEvent, Numbered)
    else if Observed(w, p.input).None? then sys
    else
      var o := Observed(w, p.input).value;
      if p.stage == Numbered then PutBlob(w, sys, pid, ObservationDoc(o, p.n), Sourced)
      else if p.stage == Sourced then PutProvenance(w, sys, pid, EventProvenance(w, pid, p.input, p.n), ProvenanceFiled)
      else if p.stage == ProvenanceFiled then PutBlob(w, sys, pid, ProvenanceDoc(EventProvenance(w, pid, p.input, p.n)), Provenanced)
      else if p.stage == Provenanced then
        var e := EventOf(w, pid, p.input, p.n);
        if Conflicts(sys.disk.events, e.id, e) then Raise(w, sys, pid)
        else Go(sys.(disk := sys.disk.(events := sys.disk.events[e.id := e])), pid, EventFiled)
      else PutBlob(w, sys, pid, EventDoc(EventOf(w, pid, p.input, p.n)), EventStored)
  }

  /** The next captured file, and after the last of them the canonical manifest. */
  function StoreNext(w: World, sys: System, pid: nat, f: Found): System
    requires pid in sys.processes
  {
    var p := sys.processes[pid];
    if p.stored < |f.files| then
      if f.files[p.stored].bytes.None? then sys.(processes := sys.processes[pid := p.(stored := p.stored + 1)])
      else
        var c := FileDoc(f.files[p.stored].bytes.value);
        if Conflicts(sys.disk.blobs, w.s.digest(c), c) then Raise(w, sys, pid)
        else sys.(disk := sys.disk.(blobs := sys.disk.blobs[w.s.digest(c) := c]),
                  processes := sys.processes[pid := p.(stored := p.stored + 1)])
    else if TextOf(w, f).Err? then Raise(w, sys, pid)
    else
      var m := ManifestOf(w, f);
      var h := w.s.digest(m);
      if Conflicts(sys.disk.manifests, h, m) then Raise(w, sys, pid)
      else Go(sys.(disk := sys.disk.(manifests := sys.disk.manifests[h := m])), pid, ManifestFiled)
  }

  /** The pre hook of the verifier: capture, checkpoint, pending marker. */
  function AdvancePre(w: World, sys: System, pid: nat): System
    requires pid in sys.processes
  {
    var p := sys.processes[pid];
    if Op(w, p.input).None? || p.input.payload.cwdScope != "." || p.input.found.None? then Raise(w, sys, pid)
    else
      var f, op := p.input.found.value, Op(w, p.input).value.occurrence;
      if p.stage == EventStored then StoreNext(w, sys, pid, f)
      else if TextOf(w, f).Err? then sys
      else if p.stage == ManifestFiled then PutBlob(w, sys, pid, ManifestOf(w, f), ManifestBlobbed)
      else if p.stage == ManifestBlobbed then PutBlob(w, sys, pid, CaptureNote(w, f), CaptureNoted)
      else if p.stage == CaptureNoted then PutProvenance(w, sys, pid, CheckpointProvenance(w, pid, f, op), CheckpointProvenanceFiled)
      else if p.stage == CheckpointProvenanceFiled then
        PutBlob(w, sys, pid, ProvenanceDoc(CheckpointProvenance(w, pid, f, op)), CheckpointProvenanced)
      else if p.stage == CheckpointProvenanced then Reserve(sys, pid, ForCheckpoint, CheckpointNumbered)
      else
        var c := CheckpointOf(w, pid, f, op, p.m);
        if p.stage == CheckpointNumbered then
          if Conflicts(sys.disk.checkpoints, c.id, c) then Raise(w, sys, pid)
          else Go(sys.(disk := sys.disk.(checkpoints := sys.disk.checkpoints[c.id := c])), pid, CheckpointFiled)
        else if p.stage == CheckpointFiled then PutBlob(w, sys, pid, CheckpointDoc(c), CheckpointBlobbed)
        else
          var marker := MakePending(w.s, Observed(w, p.input).value, EventOf(w, pid, p.input, p.n), c, op);
          if Conflicts(sys.disk.pending, op, marker) then Raise(w, sys, pid)
          else Go(sys.(disk := sys.disk.(pending := sys.disk.pending[op := marker]),
                       captures := if op in sys.disk.pending then sys.captures else sys.captures[op := f]), pid, Paired)
  }

  /** The result hook of the verifier: load the marker, read the checkpoint it names, test for a receipt, write one. Each
      is a step of its own. */
  function AdvanceResult(w: World, sys: System, pid: nat): System
    requires pid in sys.processes
  {
    var p := sys.processes[pid];
    if Op(w, p.input).None? || p.input.payload.cwdScope != "." then Raise(w, sys, pid)
    else
      var o, op := Observed(w, p.input).value, Op(w, p.input).value.occurrence;
      if p.stage == EventStored then
        if op !in sys.disk.pending || !MarkerFits(w.s, sys.disk.pending[op], o, op) then Raise(w, sys, pid) else Go(sys, pid, MarkerLoaded)
      else if op !in sys.disk.pending || EventId(pid) !in sys.disk.events || TrustedResult(o).None? then sys
      else if p.stage == MarkerLoaded then
        if CheckpointFits(w.s, sys.disk, sys.disk.pending[op]) then Go(sys, pid, CheckpointRead) else Raise(w, sys, pid)
      else if p.stage == CheckpointRead then
        if ReceiptId(op) in sys.disk.receipts then Go(sys, pid, Receipted) else Go(sys, pid, Unreceipted)
      else if p.stage == Unreceipted then PutProvenance(w, sys, pid, ReceiptProvenance(w, sys.disk, pid, op), ReceiptProvenanceFiled)
      else if p.stage == ReceiptProvenanceFiled then
        PutBlob(w, sys, pid, ProvenanceDoc(ReceiptProvenance(w, sys.disk, pid, op)), ReceiptProvenanced)
      else if p.stage == ReceiptProvenanced then Reserve(sys, pid, ForReceipt, ReceiptNumbered)
      else
        var r := ReceiptOf(w, sys.disk, pid, p.input, p.m, Op(w, p.input).value);
        if p.stage == ReceiptNumbered then PutReceipt(w, sys, pid, r, ReceiptFiled)
        else PutBlob(w, sys, pid, ReceiptDoc(r), Receipted)
  }

  predicate BeforeEvent(st: Stage) {
    st == Ready || st == Bound || st == Numbered || st == Sourced || st == ProvenanceFiled || st == Provenanced || st == EventFiled
  }

  predicate Finished(st: Stage) { st == Paired || st == Receipted || st.Stopped? }

  /** The next atomic step of process `pid`; a process that is not there or has finished does nothing. */
  function Advance(w: World, sys: System, pid: nat): System {
    if pid !in sys.processes || Finished(sys.processes[pid].stage) then sys
    else
      var p := sys.processes[pid];
      if BeforeEvent(p.stage) then AdvanceEvent(w, sys, pid)
      else if Observed(w, p.input).None? then sys
      else
        var o := Observed(w, p.input).value;
        if Exact(w, p.input) && o.event == PreToolUse then AdvancePre(w, sys, pid)
        else if Exact(w, p.input) && IsResultEvent(o.event) && TrustedResult(o).Some? then AdvanceResult(w, sys, pid)
        else Go(sys, pid, Stopped(0))
  }

  /** An execution: at every step the schedule says which process moves. Not scheduling a process any more is a crash. */
  function Run(w: World, sys: System, schedule: seq<nat>): System
    decreases |schedule|
  {
    if schedule == [] then sys else Run(w, Advance(w, sys, schedule[0]), schedule[1..])
  }

  // ---- The invariant of every interleaving ----

  function Rank(st: Stage): nat {
    match st
    case Ready => 0 case Bound => 1 case Numbered => 2 case Sourced => 3 case ProvenanceFiled => 4 case Provenanced => 5
    case EventFiled => 6 case EventStored => 7
    case ManifestFiled => 8 case ManifestBlobbed => 9 case CaptureNoted => 10 case CheckpointProvenanceFiled => 11
    case CheckpointProvenanced => 12 case CheckpointNumbered => 13 case CheckpointFiled => 14 case CheckpointBlobbed => 15
    case Paired => 16
    case MarkerLoaded => 17 case CheckpointRead => 18
    case Unreceipted => 19 case ReceiptProvenanceFiled => 20 case ReceiptProvenanced => 21 case ReceiptNumbered => 22
    case ReceiptFiled => 23 case Receipted => 24
    case Stopped(_) => 0
  }

  predicate PreStage(st: Stage) { 8 <= Rank(st) <= 16 }
  predicate ResultStage(st: Stage) { 17 <= Rank(st) }

  /** What a process knows of the disk on its way to its event record. Others cannot make it untrue. */
  ghost predicate EventFacts(w: World, sys: System, pid: nat, p: Process) {
    var r, d := Rank(p.stage), sys.disk;
    r >= 1 ==>
      && w.s.meta.validatedProfile && Observed(w, p.input).Some?
      && var o := Observed(w, p.input).value;
      && d.external == Some(o.externalHash)
      && (r >= 2 ==> p.n in sys.reserved && sys.reserved[p.n] == (pid, ForEvent) && p.n <= d.sequence)
      && (r >= 3 ==> Stored(w.s, d, ObservationDoc(o, p.n)))
      && (r >= 5 ==> Stored(w.s, d, ProvenanceDoc(EventProvenance(w, pid, p.input, p.n))))
      && (r >= 6 ==> EventId(pid) in d.events && d.events[EventId(pid)] == EventOf(w, pid, p.input, p.n))
      && (r >= 7 ==> Stored(w.s, d, EventDoc(EventOf(w, pid, p.input, p.n))))
  }

  ghost predicate PrefixStored(w: World, d: Disk, files: seq<FoundFile>, k: nat) {
    forall i :: 0 <= i < k && i < |files| && files[i].bytes.Some? ==> Stored(w.s, d, FileDoc(files[i].bytes.value))
  }

  predicate PreHook(w: World, p: Process) {
    && Observed(w, p.input).Some? && Exact(w, p.input) && Observed(w, p.input).value.event == PreToolUse && Op(w, p.input).Some? && p.input.found.Some?
  }

  ghost predicate PreFacts(w: World, sys: System, pid: nat, p: Process) {
    var r, d := Rank(p.stage), sys.disk;
    && (p.input.Hook? && p.input.found.Some? ==> PrefixStored(w, d, p.input.found.value.files, p.stored))
    && (PreStage(p.stage) ==>
      && PreHook(w, p)
      && var f, op := p.input.found.value, Op(w, p.input).value.occurrence;
      && TextOf(w, f).Ok? && FilesStored(w.s, d, f.files)
      && w.s.digest(ManifestOf(w, f)) in d.manifests && d.manifests[w.s.digest(ManifestOf(w, f))] == ManifestOf(w, f)
      && (r >= 9 ==> Stored(w.s, d, ManifestOf(w, f)))
      && (r >= 10 ==> Stored(w.s, d, CaptureNote(w, f)))
      && (r >= 12 ==> Stored(w.s, d, ProvenanceDoc(CheckpointProvenance(w, pid, f, op))))
      && (r >= 13 ==> p.m in sys.reserved && sys.reserved[p.m] == (pid, ForCheckpoint) && p.n < p.m <= d.sequence)
      && (r >= 14 ==> CheckpointId(pid) in d.checkpoints && d.checkpoints[CheckpointId(pid)] == CheckpointOf(w, pid, f, op, p.m))
      && (r >= 15 ==> Stored(w.s, d, CheckpointDoc(CheckpointOf(w, pid, f, op, p.m))))
      && (r == 16 ==> op in d.pending && d.pending[op].preEventId == EventId(pid) && op in sys.captures && sys.captures[op] == f))
  }

  predicate ResultHook(w: World, p: Process) {
    && Observed(w, p.input).Some? && Exact(w, p.input) && IsResultEvent(Observed(w, p.input).value.event) && Op(w, p.input).Some?
    && TrustedResult(Observed(w, p.input).value).Some?
  }

  ghost predicate CheckpointBefore(d: Disk, op: string, m: nat)
    requires op in d.pending
  {
    d.pending[op].checkpointId in d.checkpoints && d.checkpoints[d.pending[op].checkpointId].sequence < m
  }

  ghost predicate ResultFacts(w: World, sys: System, pid: nat, p: Process) {
    var r, d := Rank(p.stage), sys.disk;
    ResultStage(p.stage) ==>
      && ResultHook(w, p)
      && var op := Op(w, p.input).value.occurrence;
      && op in d.pending && EventId(pid) in d.events
      && (21 <= r <= 23 ==> Stored(w.s, d, ProvenanceDoc(ReceiptProvenance(w, d, pid, op))))
      && (22 <= r <= 23 ==> p.m in sys.reserved && sys.reserved[p.m] == (pid, ForReceipt) && p.n < p.m <= d.sequence)
      && (22 <= r <= 23 ==> CheckpointBefore(d, op, p.m))
      && (r >= 23 ==> ReceiptId(op) in d.receipts)
  }

  ghost predicate Facts(w: World, sys: System, pid: nat, p: Process) {
    && EventFacts(w, sys, pid, p) && PreFacts(w, sys, pid, p) && ResultFacts(w, sys, pid, p)
    && (p.stage.Stopped? ==> p.stage.code == RaiseCode(w, p.input))
  }

  /** Every number on a record was reserved by the process that wrote the record, for that record. */
  ghost predicate NumbersOwned(sys: System) {
    && (forall k :: k in sys.reserved ==> 1 <= k <= sys.disk.sequence)
    && (forall id :: id in sys.disk.events ==>
          id.EventId? && sys.disk.events[id].sequence in sys.reserved && sys.reserved[sys.disk.events[id].sequence] == (id.n, ForEvent))
    && (forall id :: id in sys.disk.checkpoints ==>
          id.CheckpointId? && sys.disk.checkpoints[id].sequence in sys.reserved &&
          sys.reserved[sys.disk.checkpoints[id].sequence] == (id.n, ForCheckpoint))
    && (forall id :: id in sys.disk.receipts ==> ReceiptOwned(sys, sys.disk.receipts[id]))
  }

  ghost predicate ReceiptOwned(sys: System, r: Receipt) {
    && r.sequence.Some? && r.sequence.value in sys.reserved
    && sys.reserved[r.sequence.value].1 == ForReceipt
    && |r.passedRefs| == 1 && r.passedRefs[0].locator == RecordAt(Events, EventId(sys.reserved[r.sequence.value].0))
  }

  /** A pending marker was written by the process whose pre-event it names, and that process has finished. */
  ghost predicate MarkersOwned(sys: System) {
    forall op :: op in sys.disk.pending ==>
      && sys.disk.pending[op].preEventId.EventId? && sys.disk.pending[op].preEventId.n in sys.processes
      && sys.processes[sys.disk.pending[op].preEventId.n].stage == Paired
  }

  /** What is true of the disk and the histories. */
  ghost predicate Shared(w: World, sys: System) {
    && Sound(w.s, sys.disk, sys.captures) && sys.captures.Keys == sys.disk.pending.Keys
    && NumbersOwned(sys) && MarkersOwned(sys)
  }

  ghost predicate Invariant(w: World, sys: System) {
    && Shared(w, sys)
    && (forall pid :: pid in sys.processes ==> Facts(w, sys, pid, sys.processes[pid]))
  }

  /** Nothing on disk and nothing in the histories was lost or altered. */
  ghost predicate Added(a: System, b: System) {
    Grows(a.disk, b.disk) && MapGrows(a.reserved, b.reserved) && MapGrows(a.captures, b.captures)
  }

  /** What one step of `pid` does: it only adds, it keeps the shared invariant, and what `pid` then knows is true. */
  ghost predicate GoodStep(w: World, a: System, b: System, pid: nat) {
    && Shared(w, b) && Added(a, b)
    && pid in a.processes && pid in b.processes && b.processes == a.processes[pid := b.processes[pid]]
    && b.processes[pid].input == a.processes[pid].input && Facts(w, b, pid, b.processes[pid])
  }

  // ---- Knowledge survives the steps of others ----

  lemma EventFactsStay(w: World, a: System, b: System, pid: nat, p: Process)
    requires EventFacts(w, a, pid, p) && Grows(a.disk, b.disk) && MapGrows(a.reserved, b.reserved)
    ensures EventFacts(w, b, pid, p)
  {
    hide Observed, EventOf;
  }

  lemma PreFactsStay(w: World, a: System, b: System, pid: nat, p: Process)
    requires PreFacts(w, a, pid, p) && Grows(a.disk, b.disk) && MapGrows(a.reserved, b.reserved) && MapGrows(a.captures, b.captures)
    ensures PreFacts(w, b, pid, p)
  {
    hide Observed, EventOf, CheckpointOf, CheckpointProvenance, TextOf, MakePending, CaptureNote;
  }

  lemma ResultFactsStay(w: World, a: System, b: System, pid: nat, p: Process)
    requires ResultFacts(w, a, pid, p) && Grows(a.disk, b.disk) && MapGrows(a.reserved, b.reserved)
    ensures ResultFacts(w, b, pid, p)
  {
    hide Observed, TrustedResult;
  }

  lemma FactsStay(w: World, a: System, b: System, pid: nat, p: Process)
    requires Facts(w, a, pid, p) && Grows(a.disk, b.disk) && MapGrows(a.reserved, b.reserved) && MapGrows(a.captures, b.captures)
    ensures Facts(w, b, pid, p)
  {
    EventFactsStay(w, a, b, pid, p);
    PreFactsStay(w, a, b, pid, p);
    ResultFactsStay(w, a, b, pid, p);
  }

  lemma GoodStepKeeps(w: World, a: System, b: System, pid: nat)
    requires Invariant(w, a) && GoodStep(w, a, b, pid)
    ensures Invariant(w, b)
  {
    hide Shared, Facts;
    forall q | q in b.processes ensures Facts(w, b, q, b.processes[q]) {
      if q != pid { FactsStay(w, a, b, q, a.processes[q]); }
    }
  }

  // ---- The kinds of step ----

  /** `b` extends `a` and only `pid` moved; what remains to show is what `pid` knows at its new stage. */
  ghost predicate Extends(w: World, a: System, b: System, pid: nat) {
    && Shared(w, b) && Added(a, b)
    && pid in a.processes && pid in b.processes && b.processes == a.processes[pid := b.processes[pid]]
    && Facts(w, b, pid, a.processes[pid])
  }

  ghost predicate Moving(w: World, a: System, pid: nat) {
    Shared(w, a) && pid in a.processes && !Finished(a.processes[pid].stage) && Facts(w, a, pid, a.processes[pid])
  }

  ghost predicate SameRecords(a: Disk, b: Disk) {
    b.pending == a.pending && b.events == a.events && b.checkpoints == a.checkpoints && b.receipts == a.receipts
  }

  lemma NumbersStay(a: System, b: System)
    requires NumbersOwned(a) && MapGrows(a.reserved, b.reserved) && a.disk.sequence <= b.disk.sequence
    requires b.disk.events == a.disk.events && b.disk.checkpoints == a.disk.checkpoints && b.disk.receipts == a.disk.receipts
    requires forall k :: k in b.reserved && k !in a.reserved ==> 1 <= k <= b.disk.sequence
    ensures NumbersOwned(b)
  {
  }

  lemma MarkersStay(a: System, b: System, pid: nat)
    requires MarkersOwned(a) && b.disk.pending == a.disk.pending && pid in a.processes && a.processes[pid].stage != Paired
    requires pid in b.processes && b.processes == a.processes[pid := b.processes[pid]]
    ensures MarkersOwned(b)
  {
  }

  lemma SharedKept(w: World, a: System, b: System, pid: nat)
    requires Moving(w, a, pid) && Sound(w.s, b.disk, b.captures) && SameRecords(a.disk, b.disk) && b.captures == a.captures
    requires Grows(a.disk, b.disk) && MapGrows(a.reserved, b.reserved)
    requires forall k :: k in b.reserved && k !in a.reserved ==> 1 <= k <= b.disk.sequence
    requires pid in b.processes && b.processes == a.processes[pid := b.processes[pid]]
    ensures Extends(w, a, b, pid)
  {
    hide Sound, Facts, NumbersOwned, MarkersOwned;
    NumbersStay(a, b);
    MarkersStay(a, b, pid);
    hide MapGrows;
    FactsStay(w, a, b, pid, a.processes[pid]);
  }

  lemma StoppedFacts(w: World, b: System, pid: nat, p: Process)
    requires Facts(w, b, pid, p)
    ensures Facts(w, b, pid, p.(stage := Stopped(RaiseCode(w, p.input))))
  {
    hide Observed, TextOf, RaiseCode;
  }

  lemma RaiseExtends(w: World, a: System, pid: nat)
    requires Moving(w, a, pid)
    ensures Extends(w, a, Raise(w, a, pid), pid)
  {
    hide Sound, NumbersOwned, MarkersOwned, Facts, RaiseCode;
    AnomalyAdded(w.s, a.disk, a.captures, a.disk.anomalies + 1);
    SharedKept(w, a, Raise(w, a, pid), pid);
  }

  lemma RaiseGood(w: World, a: System, pid: nat)
    requires Moving(w, a, pid)
    ensures GoodStep(w, a, Raise(w, a, pid), pid)
  {
    var b := Raise(w, a, pid);
    hide Shared, Added, Facts, RaiseCode;
    RaiseExtends(w, a, pid);
    StoppedFacts(w, b, pid, a.processes[pid]);
  }

  lemma BlobExtends(w: World, a: System, pid: nat, c: Content, p: Process)
    requires Moving(w, a, pid) && !Conflicts(a.disk.blobs, w.s.digest(c), c)
    ensures var b := a.(disk := a.disk.(blobs := a.disk.blobs[w.s.digest(c) := c]), processes := a.processes[pid := p]);
      Extends(w, a, b, pid) && Stored(w.s, b.disk, c)
  {
    hide Sound, Facts, NumbersOwned, MarkersOwned;
    BlobAdded(w.s, a.disk, a.captures, c);
    SharedKept(w, a, a.(disk := a.disk.(blobs := a.disk.blobs[w.s.digest(c) := c]), processes := a.processes[pid := p]), pid);
  }

  lemma ProvenanceExtends(w: World, a: System, pid: nat, v: Provenance, p: Process)
    requires Moving(w, a, pid) && !Conflicts(a.disk.provenance, v.id, v)
    ensures Extends(w, a, a.(disk := a.disk.(provenance := a.disk.provenance[v.id := v]), processes := a.processes[pid := p]), pid)
  {
    hide Sound, Facts, NumbersOwned, MarkersOwned;
    if v.id in a.disk.provenance {
      assert a.disk.(provenance := a.disk.provenance[v.id := v]) == a.disk;
    } else {
      ProvenanceAdded(w.s, a.disk, a.captures, v.id, v);
    }
    SharedKept(w, a, a.(disk := a.disk.(provenance := a.disk.provenance[v.id := v]), processes := a.processes[pid := p]), pid);
  }

  lemma ReserveExtends(w: World, a: System, pid: nat, purpose: Purpose, next: Stage)
    requires Moving(w, a, pid)
    ensures var k, b := a.disk.sequence + 1, Reserve(a, pid, purpose, next);
      Extends(w, a, b, pid) && k in b.reserved && b.reserved[k] == (pid, purpose)
  {
    hide Sound, Facts, MarkersOwned;
    SequenceAdvanced(w.s, a.disk, a.captures, a.disk.sequence + 1);
    assert a.disk.sequence + 1 !in a.reserved;
    hide NumbersOwned;
    assert Grows(a.disk, Reserve(a, pid, purpose, next).disk);
    hide Grows;
    SharedKept(w, a, Reserve(a, pid, purpose, next), pid);
  }

  // ---- From the start of a hook to its event record ----

  /** The first eight stages: what a process knows there is the event path's facts, plus its stored files. */
  lemma EventStageFacts(w: World, b: System, pid: nat, p: Process, q: Process)
    requires Facts(w, b, pid, p) && Rank(q.stage) <= 7 && !q.stage.Stopped? && q.input == p.input && q.stored == p.stored
    requires EventFacts(w, b, pid, q)
    ensures Facts(w, b, pid, q)
  {
    hide Observed, TextOf, EventFacts;
  }

  lemma EventStep(w: World, a: System, b: System, pid: nat)
    requires Extends(w, a, b, pid)
    requires var p, q := a.processes[pid], b.processes[pid];
      Rank(q.stage) <= 7 && !q.stage.Stopped? && q.input == p.input && q.stored == p.stored && (EventFacts(w, b, pid, p) ==> EventFacts(w, b, pid, q))
    ensures GoodStep(w, a, b, pid)
  {
    hide Observed, EventFacts, PreFacts, ResultFacts, Shared, Added;
    EventStageFacts(w, b, pid, a.processes[pid], b.processes[pid]);
  }

  lemma StartGood(w: World, a: System, pid: nat)
    requires Moving(w, a, pid) && a.processes[pid].stage == Ready
    ensures GoodStep(w, a, AdvanceEvent(w, a, pid), pid)
  {
    hide Observed, Sound, NumbersOwned, MarkersOwned, Facts;
    var p, b := a.processes[pid], AdvanceEvent(w, a, pid);
    if b == Raise(w, a, pid) {
      RaiseGood(w, a, pid);
    } else {
      var h := Observed(w, p.input).value.externalHash;
      if a.disk.external.None? {
        ExternalBound(w.s, a.disk, a.captures, h);
      } else {
        assert a.disk.(external := Some(h)) == a.disk;
      }
      SharedKept(w, a, b, pid);
      EventStageFacts(w, b, pid, p, b.processes[pid]);
    }
  }

  lemma NumberGood(w: World, a: System, pid: nat)
    requires Moving(w, a, pid) && a.processes[pid].stage == Bound
    ensures GoodStep(w, a, AdvanceEvent(w, a, pid), pid)
  {
    hide Observed, Shared, PreFacts, ResultFacts, GoodStep, Raise;
    var b := AdvanceEvent(w, a, pid);
    ReserveExtends(w, a, pid, ForEvent, Numbered);
    assert EventFacts(w, a, pid, a.processes[pid]);
    hide Moving, Facts, Extends, Stored;
    EventStep(w, a, b, pid);
  }

  /** The steps of the event path that store a blob or a provenance file. */
  lemma EventEvidenceGood(w: World, a: System, pid: nat)
    requires Moving(w, a, pid)
    requires var st := a.processes[pid].stage; st == Numbered || st == Sourced || st == ProvenanceFiled || st == EventFiled
    ensures GoodStep(w, a, AdvanceEvent(w, a, pid), pid)
  {
    hide Observed, Shared, Added, PreFacts, ResultFacts, EventOf, EventProvenance, Stored;
    var p, b := a.processes[pid], AdvanceEvent(w, a, pid);
    assert EventFacts(w, a, pid, p);
    if p.stage == Sourced {
      var v := EventProvenance(w, pid, p.input, p.n);
      if Conflicts(a.disk.provenance, v.id, v) {
        RaiseGood(w, a, pid);
      } else {
        ProvenanceExtends(w, a, pid, v, p.(stage := ProvenanceFiled));
        EventStageFacts(w, b, pid, p, b.processes[pid]);
      }
    } else {
      var c := if p.stage == Numbered then ObservationDoc(Observed(w, p.input).value, p.n)
               else if p.stage == ProvenanceFiled then ProvenanceDoc(EventProvenance(w, pid, p.input, p.n))
               else EventDoc(EventOf(w, pid, p.input, p.n));
      var next := if p.stage == Numbered then Sourced else if p.stage == ProvenanceFiled then Provenanced else EventStored;
      if Conflicts(a.disk.blobs, w.s.digest(c), c) {
        RaiseGood(w, a, pid);
      } else {
        BlobExtends(w, a, pid, c, p.(stage := next));
        EventStageFacts(w, b, pid, p, b.processes[pid]);
      }
    }
  }

  /** A step that adds records, each with a number its own process reserved. */
  lemma RecordsKept(w: World, a: System, b: System, pid: nat)
    requires Moving(w, a, pid) && Sound(w.s, b.disk, b.captures) && NumbersOwned(b)
    requires b.disk.pending == a.disk.pending && b.captures == a.captures && b.reserved == a.reserved && Grows(a.disk, b.disk)
    requires pid in b.processes && b.processes == a.processes[pid := b.processes[pid]]
    ensures Extends(w, a, b, pid)
  {
    hide Sound, Facts, NumbersOwned, MarkersOwned;
    MarkersStay(a, b, pid);
    hide MapGrows;
    FactsStay(w, a, b, pid, a.processes[pid]);
  }

  lemma EventProvenanceClean(w: World, d: Disk, pid: nat, i: HookInput, n: nat)
    requires Observed(w, i).Some?
    requires Stored(w.s, d, ObservationDoc(Observed(w, i).value, n)) && Stored(w.s, d, ProvenanceDoc(EventProvenance(w, pid, i, n)))
    ensures ProvenanceClean(w.s, d, ProofOf(w, EventProvenance(w, pid, i, n)), EventId(pid), [SourceRef(w.s, Observed(w, i).value, n)])
  {
    hide Observed;
    CitesOwn([SourceRef(w.s, Observed(w, i).value, n)]);
  }

  lemma EventRecordNumbered(a: System, b: System, pid: nat, e: AgentEvent)
    requires NumbersOwned(a) && b.reserved == a.reserved && b.disk == a.disk.(events := a.disk.events[EventId(pid) := e])
    requires e.sequence in a.reserved && a.reserved[e.sequence] == (pid, ForEvent)
    ensures NumbersOwned(b)
  {
  }

  lemma CheckpointRecordNumbered(a: System, b: System, pid: nat, c: Checkpoint)
    requires NumbersOwned(a) && b.reserved == a.reserved && b.disk == a.disk.(checkpoints := a.disk.checkpoints[CheckpointId(pid) := c])
    requires c.sequence in a.reserved && a.reserved[c.sequence] == (pid, ForCheckpoint)
    ensures NumbersOwned(b)
  {
  }

  lemma EventFileExtends(w: World, a: System, pid: nat, q: Process)
    requires Moving(w, a, pid) && a.processes[pid].stage == Provenanced
    requires var p := a.processes[pid];
      Observed(w, p.input).Some? && !Conflicts(a.disk.events, EventId(pid), EventOf(w, pid, p.input, p.n))
    ensures var p := a.processes[pid];
      Extends(w, a, a.(disk := a.disk.(events := a.disk.events[EventId(pid) := EventOf(w, pid, p.input, p.n)]), processes := a.processes[pid := q]), pid)
  {
    hide Sound, MarkersOwned, NumbersOwned, Observed, ProvenanceClean, EventSound, PreFacts, ResultFacts;
    var p := a.processes[pid];
    var e := EventOf(w, pid, p.input, p.n);
    var b := a.(disk := a.disk.(events := a.disk.events[EventId(pid) := e]), processes := a.processes[pid := q]);
    if EventId(pid) in a.disk.events {
      assert b.disk == a.disk;
    } else {
      EventProvenanceClean(w, a.disk, pid, p.input, p.n);
      NewEventSound(w.s, a.disk, EventId(pid), Observed(w, p.input).value, p.n, ProofOf(w, EventProvenance(w, pid, p.input, p.n)));
      EventAdded(w.s, a.disk, a.captures, EventId(pid), e);
    }
    EventRecordNumbered(a, b, pid, e);
    hide Facts, EventFacts;
    RecordsKept(w, a, b, pid);
  }

  lemma EventFileGood(w: World, a: System, pid: nat)
    requires Moving(w, a, pid) && a.processes[pid].stage == Provenanced
    ensures GoodStep(w, a, AdvanceEvent(w, a, pid), pid)
  {
    hide Observed, Shared, PreFacts, ResultFacts, EventProvenance, Stored, GoodStep, Raise;
    var p, b := a.processes[pid], AdvanceEvent(w, a, pid);
    assert EventFacts(w, a, pid, p) && EventOf(w, pid, p.input, p.n).id == EventId(pid);
    hide EventOf;
    if Conflicts(a.disk.events, EventId(pid), EventOf(w, pid, p.input, p.n)) {
      RaiseGood(w, a, pid);
    } else {
      EventFileExtends(w, a, pid, p.(stage := EventFiled));
      hide Moving, Facts, Extends, Conflicts;
      EventStep(w, a, b, pid);
    }
  }

  // ---- The pre hook: capture, checkpoint, marker ----

  lemma PreStageFacts(w: World, b: System, pid: nat, p: Process, q: Process)
    requires Facts(w, b, pid, p) && 7 <= Rank(p.stage) && 7 <= Rank(q.stage) <= 16 && q.input == p.input && q.n == p.n
    requires PreFacts(w, b, pid, q)
    ensures Facts(w, b, pid, q)
  {
    hide Observed, TextOf, PreFacts;
  }

  lemma PreStep(w: World, a: System, b: System, pid: nat)
    requires Extends(w, a, b, pid)
    requires var p, q := a.processes[pid], b.processes[pid];
      && 7 <= Rank(p.stage) && 7 <= Rank(q.stage) <= 16 && q.input == p.input && q.n == p.n
      && (Facts(w, b, pid, p) ==> PreFacts(w, b, pid, q))
    ensures GoodStep(w, a, b, pid)
  {
    hide Observed, EventFacts, PreFacts, ResultFacts, Shared, Added;
    PreStageFacts(w, b, pid, a.processes[pid], b.processes[pid]);
  }

  /** A process in the capture: past its event record, on the way to its pending marker. */
  ghost predicate Capturing(w: World, a: System, pid: nat) {
    && Moving(w, a, pid)
    && var p := a.processes[pid];
    && PreHook(w, p) && 7 <= Rank(p.stage) <= 15 && p.input.payload.cwdScope == "."
  }

  lemma CaptureFileGood(w: World, a: System, pid: nat)
    requires Capturing(w, a, pid) && a.processes[pid].stage == EventStored
    requires a.processes[pid].stored < |a.processes[pid].input.found.value.files|
    ensures GoodStep(w, a, AdvancePre(w, a, pid), pid)
  {
    hide Observed, Shared, EventFacts, ResultFacts, GoodStep, Raise, TextOf;
    var p, b := a.processes[pid], AdvancePre(w, a, pid);
    var file := p.input.found.value.files[p.stored];
    var q := p.(stored := p.stored + 1);
    if file.bytes.None? {
      assert b == a.(processes := a.processes[pid := q]);
      SameExtends(w, a, pid, q);
    } else if Conflicts(a.disk.blobs, w.s.digest(FileDoc(file.bytes.value)), FileDoc(file.bytes.value)) {
      RaiseGood(w, a, pid);
      return;
    } else {
      BlobExtends(w, a, pid, FileDoc(file.bytes.value), q);
    }
    hide Moving, Extends, Conflicts;
    PreStep(w, a, b, pid);
  }

  lemma SameExtends(w: World, a: System, pid: nat, q: Process)
    requires Moving(w, a, pid)
    ensures Extends(w, a, a.(processes := a.processes[pid := q]), pid)
  {
    hide Sound, Facts, NumbersOwned, MarkersOwned;
    SharedKept(w, a, a.(processes := a.processes[pid := q]), pid);
  }

  lemma ManifestExtends(w: World, a: System, pid: nat, h: Hash, c: Content, q: Process)
    requires Moving(w, a, pid) && h == w.s.digest(c) && !Conflicts(a.disk.manifests, h, c)
    ensures Extends(w, a, a.(disk := a.disk.(manifests := a.disk.manifests[h := c]), processes := a.processes[pid := q]), pid)
  {
    hide Sound, Facts, NumbersOwned, MarkersOwned;
    ManifestAdded(w.s, a.disk, a.captures, h, c);
    SharedKept(w, a, a.(disk := a.disk.(manifests := a.disk.manifests[h := c]), processes := a.processes[pid := q]), pid);
  }

  lemma ManifestFileGood(w: World, a: System, pid: nat)
    requires Capturing(w, a, pid) && a.processes[pid].stage == EventStored
    requires a.processes[pid].stored >= |a.processes[pid].input.found.value.files|
    ensures GoodStep(w, a, AdvancePre(w, a, pid), pid)
  {
    hide Observed, Shared, EventFacts, ResultFacts, GoodStep, Raise, TextOf, ManifestOf;
    var p, b := a.processes[pid], AdvancePre(w, a, pid);
    var f := p.input.found.value;
    if TextOf(w, f).Err? || Conflicts(a.disk.manifests, w.s.digest(ManifestOf(w, f)), ManifestOf(w, f)) {
      RaiseGood(w, a, pid);
    } else {
      ManifestExtends(w, a, pid, w.s.digest(ManifestOf(w, f)), ManifestOf(w, f), p.(stage := ManifestFiled));
      hide Moving, Extends, Conflicts;
      PreStep(w, a, b, pid);
    }
  }

  /** The steps of the capture that store a blob. */
  lemma PreBlobGood(w: World, a: System, pid: nat, c: Content, next: Stage)
    requires Capturing(w, a, pid) && 8 <= Rank(a.processes[pid].stage)
    requires var p := a.processes[pid];
      var f, op := p.input.found.value, Op(w, p.input).value.occurrence;
      && TextOf(w, f).Ok?
      && ((p.stage == ManifestFiled && c == ManifestOf(w, f) && next == ManifestBlobbed) ||
          (p.stage == ManifestBlobbed && c == CaptureNote(w, f) && next == CaptureNoted) ||
          (p.stage == CheckpointProvenanceFiled && c == ProvenanceDoc(CheckpointProvenance(w, pid, f, op)) && next == CheckpointProvenanced) ||
          (p.stage == CheckpointFiled && c == CheckpointDoc(CheckpointOf(w, pid, f, op, p.m)) && next == CheckpointBlobbed))
    ensures GoodStep(w, a, AdvancePre(w, a, pid), pid)
  {
    hide Observed, Shared, EventFacts, ResultFacts, GoodStep, Raise, TextOf, ManifestOf, CaptureNote, CheckpointProvenance, CheckpointOf, Stored, FilesStored;
    var p, b := a.processes[pid], AdvancePre(w, a, pid);
    assert b == PutBlob(w, a, pid, c, next);
    if Conflicts(a.disk.blobs, w.s.digest(c), c) {
      RaiseGood(w, a, pid);
    } else {
      BlobExtends(w, a, pid, c, p.(stage := next));
      hide Moving, Extends, Conflicts, AdvancePre;
      PreStep(w, a, b, pid);
    }
  }

  lemma PreProvenanceGood(w: World, a: System, pid: nat)
    requires Capturing(w, a, pid) && a.processes[pid].stage == CaptureNoted
    ensures GoodStep(w, a, AdvancePre(w, a, pid), pid)
  {
    hide Observed, Shared, EventFacts, ResultFacts, GoodStep, Raise, TextOf, ManifestOf, CaptureNote, CheckpointProvenance, Stored, FilesStored;
    var p, b := a.processes[pid], AdvancePre(w, a, pid);
    var v := CheckpointProvenance(w, pid, p.input.found.value, Op(w, p.input).value.occurrence);
    if Conflicts(a.disk.provenance, v.id, v) {
      RaiseGood(w, a, pid);
    } else {
      ProvenanceExtends(w, a, pid, v, p.(stage := CheckpointProvenanceFiled));
      hide Moving, Extends, Conflicts;
      PreStep(w, a, b, pid);
    }
  }

  lemma CheckpointNumberGood(w: World, a: System, pid: nat)
    requires Capturing(w, a, pid) && a.processes[pid].stage == CheckpointProvenanced
    ensures GoodStep(w, a, AdvancePre(w, a, pid), pid)
  {
    hide Observed, Shared, ResultFacts, GoodStep, Raise, TextOf, ManifestOf, CaptureNote, CheckpointProvenance, Stored, FilesStored;
    var p, b := a.processes[pid], AdvancePre(w, a, pid);
    ReserveExtends(w, a, pid, ForCheckpoint, CheckpointNumbered);
    assert p.n <= a.disk.sequence;
    hide Moving, Extends, Conflicts, EventFacts;
    PreStep(w, a, b, pid);
  }

  lemma ContentRefsVerified(w: World, d: Disk, files: seq<FoundFile>)
    requires FilesStored(w.s, d, files)
    ensures forall i :: 0 <= i < |ContentRefs(w, files)| ==> Verified(w.s, d, ContentRefs(w, files)[i])
  {
    if files != [] {
      assert forall k :: 0 <= k < |files[1..]| ==> files[1..][k] == files[k + 1];
      ContentRefsVerified(w, d, files[1..]);
    }
  }

  lemma CheckpointProvenanceClean(w: World, d: Disk, pid: nat, f: Found, op: string)
    requires TextOf(w, f).Ok? && FilesStored(w.s, d, f.files) && Stored(w.s, d, ManifestOf(w, f)) && Stored(w.s, d, CaptureNote(w, f))
    requires Stored(w.s, d, ProvenanceDoc(CheckpointProvenance(w, pid, f, op)))
    ensures ProvenanceClean(w.s, d, ProofOf(w, CheckpointProvenance(w, pid, f, op)), CheckpointId(pid), [ManifestRef(w, f)])
  {
    hide TextOf, FilesStored, ManifestOf, CaptureNote, ContentRefs;
    var inputs := [CaptureRef(w, f, op), ManifestRef(w, f)] + ContentRefs(w, f.files);
    ContentRefsVerified(w, d, f.files);
    assert inputs[1] == ManifestRef(w, f);
    assert Cites(inputs, ManifestRef(w, f));
  }

  lemma CheckpointFileExtends(w: World, a: System, pid: nat, f: Found, op: string, q: Process)
    requires Capturing(w, a, pid) && a.processes[pid].stage == CheckpointNumbered
    requires var p := a.processes[pid];
      && f == p.input.found.value && op == Op(w, p.input).value.occurrence && TextOf(w, f).Ok?
      && !Conflicts(a.disk.checkpoints, CheckpointId(pid), CheckpointOf(w, pid, f, op, p.m))
    ensures var c := CheckpointOf(w, pid, f, op, a.processes[pid].m);
      Extends(w, a, a.(disk := a.disk.(checkpoints := a.disk.checkpoints[CheckpointId(pid) := c]), processes := a.processes[pid := q]), pid)
  {
    hide Sound, MarkersOwned, NumbersOwned, Observed, ProvenanceClean, CheckpointSound, EventFacts, ResultFacts, CanonicalText, CheckpointProvenance, MakeCheckpoint, FilesStored;
    var p := a.processes[pid];
    var c := CheckpointOf(w, pid, f, op, p.m);
    var b := a.(disk := a.disk.(checkpoints := a.disk.checkpoints[CheckpointId(pid) := c]), processes := a.processes[pid := q]);
    if CheckpointId(pid) in a.disk.checkpoints {
      assert b.disk == a.disk;
    } else {
      CheckpointProvenanceClean(w, a.disk, pid, f, op);
      NewCheckpointSound(w.s, a.disk, CheckpointId(pid), f, p.m, ManifestRef(w, f), CaptureRef(w, f, op), ProofOf(w, CheckpointProvenance(w, pid, f, op)));
      CheckpointAdded(w.s, a.disk, a.captures, CheckpointId(pid), c);
    }
    CheckpointNumber(w, pid, f, op, p.m);
    CheckpointRecordNumbered(a, b, pid, c);
    hide Facts, PreFacts;
    RecordsKept(w, a, b, pid);
  }

  lemma CheckpointNumber(w: World, pid: nat, f: Found, op: string, m: nat)
    requires TextOf(w, f).Ok?
    ensures CheckpointOf(w, pid, f, op, m).sequence == m && CheckpointOf(w, pid, f, op, m).id == CheckpointId(pid)
  {
    hide TextOf, CheckpointProvenance;
  }

  lemma CheckpointFileGood(w: World, a: System, pid: nat)
    requires Capturing(w, a, pid) && a.processes[pid].stage == CheckpointNumbered
    ensures GoodStep(w, a, AdvancePre(w, a, pid), pid)
  {
    hide Observed, Shared, EventFacts, ResultFacts, GoodStep, Raise, TextOf, ManifestOf, CaptureNote, CheckpointProvenance, CheckpointOf, Stored, FilesStored;
    var p, b := a.processes[pid], AdvancePre(w, a, pid);
    var f, op := p.input.found.value, Op(w, p.input).value.occurrence;
    CheckpointNumber(w, pid, f, op, p.m);
    if Conflicts(a.disk.checkpoints, CheckpointId(pid), CheckpointOf(w, pid, f, op, p.m)) {
      RaiseGood(w, a, pid);
    } else {
      CheckpointFileExtends(w, a, pid, f, op, p.(stage := CheckpointFiled));
      hide Moving, Extends, Conflicts;
      PreStep(w, a, b, pid);
    }
  }

  lemma ExactClass(w: World, i: HookInput)
    requires Exact(w, i) && Observed(w, i).Some? && IsToolEvent(Observed(w, i).value.event)
    ensures Observed(w, i).value.commandClass == ExactVerifier
  {
    SanitizeExactly(i.payload, w.s.meta.verifier, w.hashText);
  }

  /** The marker the last step writes. */
  function MarkerOf(w: World, pid: nat, p: Process): Pending
    requires PreHook(w, p) && TextOf(w, p.input.found.value).Ok?
  {
    var f, op := p.input.found.value, Op(w, p.input).value.occurrence;
    MakePending(w.s, Observed(w, p.input).value, EventOf(w, pid, p.input, p.n), CheckpointOf(w, pid, f, op, p.m), op)
  }

  /** `a` with the marker of process `pid` stored. */
  function WithMarker(a: System, pid: nat, f: Found, op: string, marker: Pending): System
    requires pid in a.processes
  {
    a.(disk := a.disk.(pending := a.disk.pending[op := marker]), captures := a.captures[op := f],
       processes := a.processes[pid := a.processes[pid].(stage := Paired)])
  }

  lemma MarkerSound(w: World, a: System, pid: nat)
    requires Capturing(w, a, pid) && a.processes[pid].stage == CheckpointBlobbed && TextOf(w, a.processes[pid].input.found.value).Ok?
    ensures var p := a.processes[pid];
      var f, op := p.input.found.value, Op(w, p.input).value.occurrence;
      && MarkerOf(w, pid, p).preEventId == EventId(pid)
      && PendingSound(w.s, WithMarker(a, pid, f, op, MarkerOf(w, pid, p)).disk, a.captures[op := f], op)
  {
    hide Observed, MarkersOwned, ProvenanceClean, CanonicalText, ResultFacts, CheckpointProvenance, EventProvenance, FilesStored, Sound, PendingSound, EventSound, CheckpointSound;
    var p, d := a.processes[pid], a.disk;
    var f, op, o := p.input.found.value, Op(w, p.input).value.occurrence, Observed(w, p.input).value;
    ExactClass(w, p.input);
    SoundEvent(w.s, d, a.captures, EventId(pid));
    SoundCheckpoint(w.s, d, a.captures, CheckpointId(pid));
    NewPendingSound(w.s, d, a.captures, o, EventId(pid), CheckpointId(pid), op, f);
  }

  /** A marker of the operation that is already there names another process, which has finished: no equal bytes. */
  lemma MarkerFresh(w: World, a: System, pid: nat)
    requires Capturing(w, a, pid) && TextOf(w, a.processes[pid].input.found.value).Ok?
    ensures var p := a.processes[pid];
      var op := Op(w, p.input).value.occurrence;
      op in a.disk.pending ==> Conflicts(a.disk.pending, op, MarkerOf(w, pid, p))
  {
    hide Observed, Facts, Sound, NumbersOwned, CheckpointOf, TextOf, EventProvenance;
  }

  lemma MarkersGrow(a: System, b: System, pid: nat, op: string)
    requires MarkersOwned(a) && pid in a.processes && b.processes == a.processes[pid := a.processes[pid].(stage := Paired)]
    requires op in b.disk.pending && b.disk.pending == a.disk.pending[op := b.disk.pending[op]]
    requires b.disk.pending[op].preEventId == EventId(pid)
    ensures MarkersOwned(b)
  {
  }

  lemma MarkerShared(w: World, a: System, pid: nat, f: Found, op: string, marker: Pending)
    requires Shared(w, a) && pid in a.processes && op !in a.disk.pending && marker.preEventId == EventId(pid)
    requires PendingSound(w.s, WithMarker(a, pid, f, op, marker).disk, a.captures[op := f], op)
    ensures var b := WithMarker(a, pid, f, op, marker);
      Shared(w, b) && Grows(a.disk, b.disk) && MapGrows(a.captures, b.captures) && MapGrows(a.reserved, b.reserved)
  {
    hide Sound, PendingSound, NumbersOwned, MarkersOwned;
    var b := WithMarker(a, pid, f, op, marker);
    PendingAdded(w.s, a.disk, a.captures, op, marker, f);
    NumbersStay(a, b);
    MarkersGrow(a, b, pid, op);
  }

  lemma MarkerExtends(w: World, a: System, pid: nat, f: Found, op: string, marker: Pending)
    requires Moving(w, a, pid) && op !in a.disk.pending && marker.preEventId == EventId(pid)
    requires PendingSound(w.s, WithMarker(a, pid, f, op, marker).disk, a.captures[op := f], op)
    ensures Extends(w, a, WithMarker(a, pid, f, op, marker), pid)
  {
    hide Facts, Shared, PendingSound, Grows, MapGrows, Finished;
    MarkerShared(w, a, pid, f, op, marker);
    var b := WithMarker(a, pid, f, op, marker);
    assert pid in b.processes && b.processes == a.processes[pid := b.processes[pid]];
    hide WithMarker;
    FactsStay(w, a, b, pid, a.processes[pid]);
  }

  lemma CapturedText(w: World, a: System, pid: nat)
    requires Capturing(w, a, pid) && 8 <= Rank(a.processes[pid].stage)
    ensures TextOf(w, a.processes[pid].input.found.value).Ok?
  {
    hide Observed, Shared, EventFacts, ResultFacts, TextOf, CheckpointOf, CheckpointProvenance;
  }

  lemma MarkerStep(w: World, a: System, pid: nat)
    requires Capturing(w, a, pid) && a.processes[pid].stage == CheckpointBlobbed && TextOf(w, a.processes[pid].input.found.value).Ok?
    requires Op(w, a.processes[pid].input).value.occurrence !in a.disk.pending
    ensures var p, b := a.processes[pid], AdvancePre(w, a, pid);
      var f, op := p.input.found.value, Op(w, p.input).value.occurrence;
      && b == WithMarker(a, pid, f, op, MarkerOf(w, pid, p))
      && (MarkerOf(w, pid, p).preEventId == EventId(pid) && Facts(w, b, pid, p) ==> PreFacts(w, b, pid, p.(stage := Paired)))
  {
    hide Observed, Moving, EventFacts, ResultFacts, TextOf, ManifestOf, CaptureNote, CheckpointProvenance, CheckpointOf, Stored, FilesStored, MakePending, EventOf;
  }

  lemma MarkerRaised(w: World, a: System, pid: nat)
    requires Capturing(w, a, pid) && a.processes[pid].stage == CheckpointBlobbed && TextOf(w, a.processes[pid].input.found.value).Ok?
    requires Conflicts(a.disk.pending, Op(w, a.processes[pid].input).value.occurrence, MarkerOf(w, pid, a.processes[pid]))
    ensures AdvancePre(w, a, pid) == Raise(w, a, pid)
  {
    hide Observed, Moving, TextOf, CheckpointOf, MakePending, EventOf, Raise;
  }

  lemma MarkerGood(w: World, a: System, pid: nat)
    requires Capturing(w, a, pid) && a.processes[pid].stage == CheckpointBlobbed
    ensures GoodStep(w, a, AdvancePre(w, a, pid), pid)
  {
    hide Observed, Shared, Facts, GoodStep, Raise, TextOf, MarkerOf, AdvancePre, PendingSound;
    CapturedText(w, a, pid);
    var p := a.processes[pid];
    var f, op, marker := p.input.found.value, Op(w, p.input).value.occurrence, MarkerOf(w, pid, p);
    if Conflicts(a.disk.pending, op, marker) {
      MarkerRaised(w, a, pid);
      RaiseGood(w, a, pid);
    } else {
      MarkerFresh(w, a, pid);
      MarkerSound(w, a, pid);
      MarkerStep(w, a, pid);
      MarkerExtends(w, a, pid, f, op, marker);
      hide Extends, Conflicts, PreFacts;
      PreStep(w, a, WithMarker(a, pid, f, op, marker), pid);
    }
  }

  lemma PreGood(w: World, a: System, pid: nat)
    requires Moving(w, a, pid) && 7 <= Rank(a.processes[pid].stage) <= 15
    requires var p := a.processes[pid]; Observed(w, p.input).Some? && Exact(w, p.input) && Observed(w, p.input).value.event == PreToolUse
    ensures GoodStep(w, a, AdvancePre(w, a, pid), pid)
  {
    hide Observed, Shared, EventFacts, ResultFacts, GoodStep, Raise, TextOf, ManifestOf, CaptureNote, CheckpointProvenance, CheckpointOf, Stored, FilesStored, MakePending, EventOf;
    var p := a.processes[pid];
    if Op(w, p.input).None? || p.input.payload.cwdScope != "." || p.input.found.None? {
      RaiseGood(w, a, pid);
      return;
    }
    var f, op := p.input.found.value, Op(w, p.input).value.occurrence;
    assert p.stage != EventStored ==> TextOf(w, f).Ok?;
    assert Capturing(w, a, pid);
    hide Moving, Facts, PreFacts, AdvancePre, Capturing;
    match p.stage
    case EventStored => if p.stored < |f.files| { CaptureFileGood(w, a, pid); } else { ManifestFileGood(w, a, pid); }
    case ManifestFiled => PreBlobGood(w, a, pid, ManifestOf(w, f), ManifestBlobbed);
    case ManifestBlobbed => PreBlobGood(w, a, pid, CaptureNote(w, f), CaptureNoted);
    case CaptureNoted => PreProvenanceGood(w, a, pid);
    case CheckpointProvenanceFiled => PreBlobGood(w, a, pid, ProvenanceDoc(CheckpointProvenance(w, pid, f, op)), CheckpointProvenanced);
    case CheckpointProvenanced => CheckpointNumberGood(w, a, pid);
    case CheckpointNumbered => CheckpointFileGood(w, a, pid);
    case CheckpointFiled => PreBlobGood(w, a, pid, CheckpointDoc(CheckpointOf(w, pid, f, op, p.m)), CheckpointBlobbed);
    case CheckpointBlobbed => MarkerGood(w, a, pid);
  }

  // ---- The result hook: marker, test, receipt ----

  lemma ResultStep(w: World, a: System, b: System, pid: nat)
    requires Extends(w, a, b, pid)
    requires var p, q := a.processes[pid], b.processes[pid];
      && (p.stage == EventStored || 17 <= Rank(p.stage)) && 17 <= Rank(q.stage) && q.input == p.input && q.n == p.n && q.stored == p.stored
      && (Facts(w, b, pid, p) ==> ResultFacts(w, b, pid, q))
    ensures GoodStep(w, a, b, pid)
  {
    hide Observed, Shared, Added, TextOf, ResultFacts;
  }

  /** A process in the receipt: past its event record, on the way to its receipt. */
  ghost predicate Receipting(w: World, a: System, pid: nat) {
    && Moving(w, a, pid)
    && var p := a.processes[pid];
    && ResultHook(w, p) && (p.stage == EventStored || 17 <= Rank(p.stage) <= 23) && p.input.payload.cwdScope == "."
  }

  /** A process that has only read something is somewhere new on the way to its receipt. */
  lemma ReadGood(w: World, a: System, pid: nat, stage: Stage)
    requires Receipting(w, a, pid) && Op(w, a.processes[pid].input).value.occurrence in a.disk.pending && EventId(pid) in a.disk.events
    requires 17 <= Rank(stage) <= 19 || (stage == Receipted && ReceiptId(Op(w, a.processes[pid].input).value.occurrence) in a.disk.receipts)
    ensures GoodStep(w, a, Go(a, pid, stage), pid)
  {
    hide Observed, Shared, PreFacts, GoodStep, TrustedResult, EventOf, Stored, Extends;
    var p, b := a.processes[pid], Go(a, pid, stage);
    var q := p.(stage := stage);
    assert b == a.(processes := a.processes[pid := q]);
    assert ResultFacts(w, b, pid, q);
    SameExtends(w, a, pid, q);
    hide Moving, Facts, ResultFacts;
    ResultStep(w, a, b, pid);
  }

  lemma OwnEventThere(w: World, a: System, pid: nat)
    requires Receipting(w, a, pid)
    ensures EventId(pid) in a.disk.events
    ensures a.processes[pid].stage != EventStored ==> Op(w, a.processes[pid].input).value.occurrence in a.disk.pending
  {
    hide Observed, Shared, PreFacts, TrustedResult, EventOf, Stored;
  }

  /** The three reading steps. */
  lemma ReadingSteps(w: World, a: System, pid: nat)
    requires pid in a.processes && ResultHook(w, a.processes[pid]) && a.processes[pid].input.payload.cwdScope == "."
    ensures var p, b := a.processes[pid], AdvanceResult(w, a, pid);
      var o, op := Observed(w, p.input).value, Op(w, p.input).value.occurrence;
      && (p.stage == EventStored ==> b == if op in a.disk.pending && MarkerFits(w.s, a.disk.pending[op], o, op) then Go(a, pid, MarkerLoaded) else Raise(w, a, pid))
      && (op in a.disk.pending && EventId(pid) in a.disk.events ==>
            && (p.stage == MarkerLoaded ==> b == if CheckpointFits(w.s, a.disk, a.disk.pending[op]) then Go(a, pid, CheckpointRead) else Raise(w, a, pid))
            && (p.stage == CheckpointRead ==> b == Go(a, pid, if ReceiptId(op) in a.disk.receipts then Receipted else Unreceipted)))
  {
    hide Observed, TrustedResult, MarkerFits, CheckpointFits, Go, Raise, PutBlob, PutProvenance, PutReceipt, Reserve, ReceiptOf, ReceiptProvenance, RecordedOperation;
  }

  /** Loading the marker, reading its checkpoint, testing for a receipt. */
  lemma LoadGood(w: World, a: System, pid: nat)
    requires Receipting(w, a, pid) && (a.processes[pid].stage == EventStored || a.processes[pid].stage == MarkerLoaded || a.processes[pid].stage == CheckpointRead)
    ensures GoodStep(w, a, AdvanceResult(w, a, pid), pid)
  {
    hide Shared, Facts, GoodStep, Raise, MarkerFits, CheckpointFits, Go, AdvanceResult, Observed, Op;
    OwnEventThere(w, a, pid);
    ReadingSteps(w, a, pid);
    var p, b := a.processes[pid], AdvanceResult(w, a, pid);
    var op := Op(w, p.input).value.occurrence;
    if b == Raise(w, a, pid) {
      RaiseGood(w, a, pid);
    } else if p.stage == EventStored {
      ReadGood(w, a, pid, MarkerLoaded);
    } else if p.stage == MarkerLoaded {
      ReadGood(w, a, pid, CheckpointRead);
    } else {
      ReadGood(w, a, pid, if ReceiptId(op) in a.disk.receipts then Receipted else Unreceipted);
    }
  }

  lemma ReceiptProvenanceGood(w: World, a: System, pid: nat)
    requires Receipting(w, a, pid) && a.processes[pid].stage == Unreceipted
    ensures GoodStep(w, a, AdvanceResult(w, a, pid), pid)
  {
    hide Observed, Shared, PreFacts, EventFacts, GoodStep, Raise, TrustedResult;
    var p, b := a.processes[pid], AdvanceResult(w, a, pid);
    var v := ReceiptProvenance(w, a.disk, pid, Op(w, p.input).value.occurrence);
    hide ReceiptProvenance;
    if Conflicts(a.disk.provenance, v.id, v) {
      RaiseGood(w, a, pid);
    } else {
      ProvenanceExtends(w, a, pid, v, p.(stage := ReceiptProvenanceFiled));
      hide Moving, Extends, Conflicts;
      ResultStep(w, a, b, pid);
    }
  }

  lemma ReceiptProvenanceBlobGood(w: World, a: System, pid: nat)
    requires Receipting(w, a, pid) && a.processes[pid].stage == ReceiptProvenanceFiled
    ensures GoodStep(w, a, AdvanceResult(w, a, pid), pid)
  {
    hide Observed, Shared, PreFacts, EventFacts, GoodStep, Raise, TrustedResult, Stored;
    var p, b := a.processes[pid], AdvanceResult(w, a, pid);
    var op := Op(w, p.input).value.occurrence;
    var c := ProvenanceDoc(ReceiptProvenance(w, a.disk, pid, op));
    if Conflicts(a.disk.blobs, w.s.digest(c), c) {
      RaiseGood(w, a, pid);
    } else {
      BlobExtends(w, a, pid, c, p.(stage := ReceiptProvenanced));
      assert ReceiptProvenance(w, b.disk, pid, op) == ReceiptProvenance(w, a.disk, pid, op);
      hide Moving, Extends, Conflicts, ReceiptProvenance;
      ResultStep(w, a, b, pid);
    }
  }

  lemma ReceiptNumberStep(w: World, a: System, pid: nat)
    requires Receipting(w, a, pid) && a.processes[pid].stage == ReceiptProvenanced
    ensures AdvanceResult(w, a, pid) == Reserve(a, pid, ForReceipt, ReceiptNumbered)
  {
    hide Observed, Shared, PreFacts, EventFacts, TrustedResult, Stored, Reserve, ReceiptOf;
  }

  lemma CheckpointEarlier(w: World, a: System, op: string)
    requires Shared(w, a) && op in a.disk.pending
    ensures CheckpointBefore(a.disk, op, a.disk.sequence + 1)
  {
    hide Sound, NumbersOwned, MarkersOwned, PendingSound, FoundManifestHash;
    CheckpointEarlierIf(w.s, a.disk, a.captures, op);
    SoundPending(w.s, a.disk, a.captures, op);
  }

  lemma ReceiptNumberedFacts(w: World, a: System, pid: nat)
    requires Receipting(w, a, pid) && a.processes[pid].stage == ReceiptProvenanced
    requires var b := Reserve(a, pid, ForReceipt, ReceiptNumbered);
      Facts(w, b, pid, a.processes[pid])
    ensures var b := Reserve(a, pid, ForReceipt, ReceiptNumbered);
      ResultFacts(w, b, pid, b.processes[pid])
  {
    hide Observed, Shared, PreFacts, TrustedResult, Stored, EventOf, ReceiptProvenance;
    var p, b := a.processes[pid], Reserve(a, pid, ForReceipt, ReceiptNumbered);
    var op := Op(w, p.input).value.occurrence;
    assert p.n <= a.disk.sequence by { assert EventFacts(w, a, pid, p); }
    hide EventFacts;
    assert op in a.disk.pending;
    CheckpointEarlier(w, a, op);
    assert ReceiptProvenance(w, b.disk, pid, op) == ReceiptProvenance(w, a.disk, pid, op) by { SameReceiptProvenance(w, a.disk, b.disk, pid, op); }
  }

  lemma SameReceiptProvenance(w: World, a: Disk, b: Disk, pid: nat, op: string)
    requires op in a.pending && EventId(pid) in a.events && b.pending == a.pending && b.events == a.events
    ensures ReceiptProvenance(w, b, pid, op) == ReceiptProvenance(w, a, pid, op)
  {
  }

  lemma ReceiptNumberGood(w: World, a: System, pid: nat)
    requires Receipting(w, a, pid) && a.processes[pid].stage == ReceiptProvenanced
    ensures GoodStep(w, a, AdvanceResult(w, a, pid), pid)
  {
    hide Observed, Shared, Facts, GoodStep, AdvanceResult;
    var b := Reserve(a, pid, ForReceipt, ReceiptNumbered);
    ReceiptNumberStep(w, a, pid);
    ReserveExtends(w, a, pid, ForReceipt, ReceiptNumbered);
    ReceiptNumberedFacts(w, a, pid);
    hide ResultFacts;
    ResultStep(w, a, b, pid);
  }

  lemma StoredProvenanceClean(s: Setting, d: Disk, v: Provenance)
    requires Stored(s, d, ProvenanceDoc(v)) && v.producer == s.meta.producerRef
    requires forall i :: 0 <= i < |v.inputs| ==> Verified(s, d, v.inputs[i])
    ensures ProvenanceClean(s, d, Some(RecordRef(s, ProvenanceRecords, v.id, ProvenanceDoc(v))), v.output, v.inputs)
  {
    CitesOwn(v.inputs);
  }

  lemma ReceiptInputsVerified(w: World, sys: System, op: string, id: Id)
    requires Sound(w.s, sys.disk, sys.captures) && op in sys.disk.pending && id in sys.disk.events
    requires Stored(w.s, sys.disk, EventDoc(sys.disk.events[id]))
    ensures var inputs := ReceiptInputs(w.s, sys.disk, op, id); forall i :: 0 <= i < |inputs| ==> Verified(w.s, sys.disk, inputs[i])
  {
    hide Sound, PendingSound, FoundManifestHash;
    SoundPending(w.s, sys.disk, sys.captures, op);
    assert Verified(w.s, sys.disk, RecordRef(w.s, Events, id, EventDoc(sys.disk.events[id])));
    hide Stored, Verified, RecordRef;
  }

  lemma ReceiptProvenanceClean(w: World, sys: System, pid: nat, op: string)
    requires Sound(w.s, sys.disk, sys.captures) && op in sys.disk.pending && EventId(pid) in sys.disk.events
    requires Stored(w.s, sys.disk, EventDoc(sys.disk.events[EventId(pid)]))
    requires Stored(w.s, sys.disk, ProvenanceDoc(ReceiptProvenance(w, sys.disk, pid, op)))
    ensures ProvenanceClean(w.s, sys.disk, ProofOf(w, ReceiptProvenance(w, sys.disk, pid, op)), ReceiptId(op),
              ReceiptInputs(w.s, sys.disk, op, EventId(pid)))
  {
    hide Sound, ProvenanceClean, ReceiptInputs, Stored, Verified;
    ReceiptInputsVerified(w, sys, op, EventId(pid));
    StoredProvenanceClean(w.s, sys.disk, ReceiptProvenance(w, sys.disk, pid, op));
  }

  /** The receipt process `pid` is about to write. */
  function OwnReceipt(w: World, d: Disk, pid: nat, p: Process): Receipt
    requires ResultHook(w, p) && Op(w, p.input).value.occurrence in d.pending && EventId(pid) in d.events
  {
    ReceiptOf(w, d, pid, p.input, p.m, Op(w, p.input).value)
  }

  ghost predicate Writing(w: World, a: System, pid: nat) {
    && Receipting(w, a, pid)
    && var p := a.processes[pid];
    && 22 <= Rank(p.stage) && Op(w, p.input).value.occurrence in a.disk.pending && EventId(pid) in a.disk.events
  }

  /** `a` with the receipt of process `pid` stored. */
  function WithReceipt(w: World, a: System, pid: nat): System
    requires pid in a.processes && ResultHook(w, a.processes[pid])
    requires Op(w, a.processes[pid].input).value.occurrence in a.disk.pending && EventId(pid) in a.disk.events
  {
    var p := a.processes[pid];
    a.(disk := a.disk.(receipts := a.disk.receipts[ReceiptId(Op(w, p.input).value.occurrence) := OwnReceipt(w, a.disk, pid, p)]),
       processes := a.processes[pid := p.(stage := ReceiptFiled)])
  }

  lemma OwnReceiptSound(w: World, a: System, pid: nat)
    requires Writing(w, a, pid) && a.processes[pid].stage == ReceiptNumbered
    requires ReceiptId(Op(w, a.processes[pid].input).value.occurrence) !in a.disk.receipts
    ensures var op := Op(w, a.processes[pid].input).value.occurrence;
      ReceiptSound(w.s, a.disk.(receipts := a.disk.receipts[ReceiptId(op) := OwnReceipt(w, a.disk, pid, a.processes[pid])]), ReceiptId(op))
  {
    hide Observed, Sound, NumbersOwned, MarkersOwned, PreFacts, TrustedResult, ReceiptSound, ProvenanceClean, EventProvenance, ReceiptProvenance, MakeReceipt;
    var p := a.processes[pid];
    var operation := Op(w, p.input).value;
    ExactClass(w, p.input);
    ReceiptProvenanceClean(w, a, pid, operation.occurrence);
    NewReceiptSound(w.s, a.disk, a.captures, operation.occurrence, operation, EventId(pid), Observed(w, p.input).value, p.m,
      ProofOf(w, ReceiptProvenance(w, a.disk, pid, operation.occurrence)));
  }

  lemma OwnReceiptOwned(w: World, a: System, pid: nat)
    requires Writing(w, a, pid) && NumbersOwned(a)
    ensures OwnReceipt(w, a.disk, pid, a.processes[pid]).id == ReceiptId(Op(w, a.processes[pid].input).value.occurrence)
    ensures a.processes[pid].stage == ReceiptNumbered ==> NumbersOwned(WithReceipt(w, a, pid))
  {
    hide Observed, Sound, MarkersOwned, PreFacts, EventFacts, TrustedResult, ReceiptProvenance;
  }

  lemma ReceiptRecordExtends(w: World, a: System, pid: nat, id: Id, r: Receipt, q: Process)
    requires Moving(w, a, pid) && !Conflicts(a.disk.receipts, id, r)
    requires var b := a.(disk := a.disk.(receipts := a.disk.receipts[id := r]), processes := a.processes[pid := q]);
      NumbersOwned(b) && (id !in a.disk.receipts ==> ReceiptSound(w.s, b.disk, id))
    ensures Extends(w, a, a.(disk := a.disk.(receipts := a.disk.receipts[id := r]), processes := a.processes[pid := q]), pid)
  {
    hide Sound, NumbersOwned, MarkersOwned, Facts, ReceiptSound;
    var b := a.(disk := a.disk.(receipts := a.disk.receipts[id := r]), processes := a.processes[pid := q]);
    if id in a.disk.receipts {
      assert b.disk == a.disk;
    } else {
      ReceiptAdded(w.s, a.disk, a.captures, id, r);
    }
    RecordsKept(w, a, b, pid);
  }

  lemma ReceiptExtends(w: World, a: System, pid: nat)
    requires Writing(w, a, pid) && a.processes[pid].stage == ReceiptNumbered
    requires var p := a.processes[pid];
      !Conflicts(a.disk.receipts, ReceiptId(Op(w, p.input).value.occurrence), OwnReceipt(w, a.disk, pid, p))
    ensures Extends(w, a, WithReceipt(w, a, pid), pid)
  {
    hide Observed, Sound, NumbersOwned, Facts, OwnReceipt, ReceiptSound, TrustedResult, Extends, Conflicts, MarkersOwned;
    var p := a.processes[pid];
    var op := Op(w, p.input).value.occurrence;
    OwnReceiptOwned(w, a, pid);
    if ReceiptId(op) !in a.disk.receipts { OwnReceiptSound(w, a, pid); }
    ReceiptRecordExtends(w, a, pid, ReceiptId(op), OwnReceipt(w, a.disk, pid, p), p.(stage := ReceiptFiled));
  }

  lemma ReceiptFileStep(w: World, a: System, pid: nat)
    requires Writing(w, a, pid) && a.processes[pid].stage == ReceiptNumbered
    ensures AdvanceResult(w, a, pid) == PutReceipt(w, a, pid, OwnReceipt(w, a.disk, pid, a.processes[pid]), ReceiptFiled)
  {
    hide Observed, Moving, TrustedResult, ReceiptOf, ReceiptProvenance, PutReceipt;
  }

  lemma ReceiptFileGood(w: World, a: System, pid: nat)
    requires Writing(w, a, pid) && a.processes[pid].stage == ReceiptNumbered
    ensures GoodStep(w, a, AdvanceResult(w, a, pid), pid)
  {
    hide Observed, Sound, MarkersOwned, Facts, GoodStep, Raise, TrustedResult, OwnReceipt, ReceiptProvenance, NumbersOwned, AdvanceResult;
    var r := OwnReceipt(w, a.disk, pid, a.processes[pid]);
    ReceiptFileStep(w, a, pid);
    OwnReceiptOwned(w, a, pid);
    if Conflicts(a.disk.receipts, r.id, r) {
      RaiseGood(w, a, pid);
    } else {
      ReceiptExtends(w, a, pid);
      ReceiptFiledFacts(w, a, pid);
      FiledProcess(w, a, pid);
      assert PutReceipt(w, a, pid, r, ReceiptFiled) == WithReceipt(w, a, pid);
      hide PutReceipt, WithReceipt, Extends, Conflicts, Moving;
      ResultStep(w, a, WithReceipt(w, a, pid), pid);
    }
  }

  lemma FiledProcess(w: World, a: System, pid: nat)
    requires Writing(w, a, pid)
    ensures pid in WithReceipt(w, a, pid).processes && WithReceipt(w, a, pid).processes[pid] == a.processes[pid].(stage := ReceiptFiled)
  {
    hide Observed, Moving, TrustedResult;
  }

  lemma ReceiptFiledFacts(w: World, a: System, pid: nat)
    requires Writing(w, a, pid) && a.processes[pid].stage == ReceiptNumbered
    ensures var b := WithReceipt(w, a, pid);
      Facts(w, b, pid, a.processes[pid]) ==> ResultFacts(w, b, pid, a.processes[pid].(stage := ReceiptFiled))
  {
    hide Observed, Moving, TrustedResult, EventFacts, PreFacts, OwnReceipt, ReceiptProvenance, Stored;
  }

  lemma ReceiptBlobGood(w: World, a: System, pid: nat)
    requires Writing(w, a, pid) && a.processes[pid].stage == ReceiptFiled
    ensures GoodStep(w, a, AdvanceResult(w, a, pid), pid)
  {
    hide Observed, Shared, PreFacts, EventFacts, GoodStep, Raise, TrustedResult, Stored, ReceiptOf, ReceiptProvenance;
    var p, b := a.processes[pid], AdvanceResult(w, a, pid);
    var op := Op(w, p.input).value.occurrence;
    var c := ReceiptDoc(OwnReceipt(w, a.disk, pid, p));
    if Conflicts(a.disk.blobs, w.s.digest(c), c) {
      RaiseGood(w, a, pid);
    } else {
      BlobExtends(w, a, pid, c, p.(stage := Receipted));
      hide Moving, Extends, Conflicts;
      ResultStep(w, a, b, pid);
    }
  }

  lemma ResultGood(w: World, a: System, pid: nat)
    requires Moving(w, a, pid) && (a.processes[pid].stage == EventStored || 17 <= Rank(a.processes[pid].stage))
    requires var p := a.processes[pid];
      && Observed(w, p.input).Some? && Exact(w, p.input) && IsResultEvent(Observed(w, p.input).value.event)
      && TrustedResult(Observed(w, p.input).value).Some?
    ensures GoodStep(w, a, AdvanceResult(w, a, pid), pid)
  {
    hide Observed, Shared, PreFacts, EventFacts, GoodStep, Raise, TrustedResult, Stored, ReceiptOf, ReceiptProvenance;
    var p := a.processes[pid];
    if Op(w, p.input).None? || p.input.payload.cwdScope != "." {
      RaiseGood(w, a, pid);
      return;
    }
    assert Receipting(w, a, pid);
    assert p.stage != EventStored ==> Op(w, p.input).value.occurrence in a.disk.pending && EventId(pid) in a.disk.events;
    hide Moving, Facts, AdvanceResult;
    match p.stage
    case EventStored => LoadGood(w, a, pid);
    case MarkerLoaded => LoadGood(w, a, pid);
    case CheckpointRead => LoadGood(w, a, pid);
    case Unreceipted => ReceiptProvenanceGood(w, a, pid);
    case ReceiptProvenanceFiled => ReceiptProvenanceBlobGood(w, a, pid);
    case ReceiptProvenanced => ReceiptNumberGood(w, a, pid);
    case ReceiptNumbered => ReceiptFileGood(w, a, pid);
    case ReceiptFiled => ReceiptBlobGood(w, a, pid);
  }

  // ---- Every step, every run ----

  lemma EventGood(w: World, a: System, pid: nat)
    requires Moving(w, a, pid) && BeforeEvent(a.processes[pid].stage)
    ensures GoodStep(w, a, AdvanceEvent(w, a, pid), pid)
  {
    hide Shared, Facts, AdvanceEvent, GoodStep;
    match a.processes[pid].stage
    case Ready => StartGood(w, a, pid);
    case Bound => NumberGood(w, a, pid);
    case Provenanced => EventFileGood(w, a, pid);
    case _ => EventEvidenceGood(w, a, pid);
  }

  /** A hook that has nothing to bind ends after its event record. */
  lemma PlainGood(w: World, a: System, pid: nat)
    requires Moving(w, a, pid) && RaiseCode(w, a.processes[pid].input) == 0
    ensures GoodStep(w, a, Go(a, pid, Stopped(0)), pid)
  {
    hide Shared, Added, Facts, RaiseCode;
    SameExtends(w, a, pid, a.processes[pid].(stage := Stopped(0)));
    StoppedFacts(w, Go(a, pid, Stopped(0)), pid, a.processes[pid]);
  }

  /** Which path a process is on. */
  lemma PathOf(w: World, a: System, pid: nat)
    requires Moving(w, a, pid) && !BeforeEvent(a.processes[pid].stage)
    ensures var p := a.processes[pid];
      && Observed(w, p.input).Some?
      && (Exact(w, p.input) && Observed(w, p.input).value.event == PreToolUse <==> IsExactPre(w.s, p.input))
      && (PreStage(p.stage) ==> IsExactPre(w.s, p.input))
      && (ResultStage(p.stage) ==> ResultHook(w, p) && !IsExactPre(w.s, p.input))
      && 7 <= Rank(p.stage) <= 23 && Rank(p.stage) != 16
  {
    hide Shared, EventOf, TextOf, TerminationOf;
  }

  lemma AdvanceGood(w: World, a: System, pid: nat)
    requires Moving(w, a, pid)
    ensures GoodStep(w, a, Advance(w, a, pid), pid)
  {
    hide Shared, Facts, GoodStep, AdvanceEvent, AdvancePre, AdvanceResult, Observed, TrustedResult, Raise, Go;
    var p := a.processes[pid];
    if BeforeEvent(p.stage) {
      EventGood(w, a, pid);
    } else {
      PathOf(w, a, pid);
      var o := Observed(w, p.input).value;
      hide IsExactPre;
      if Exact(w, p.input) && o.event == PreToolUse {
        PreGood(w, a, pid);
      } else if Exact(w, p.input) && IsResultEvent(o.event) && TrustedResult(o).Some? {
        ResultGood(w, a, pid);
      } else {
        PlainGood(w, a, pid);
      }
    }
  }

  lemma AdvanceKeeps(w: World, a: System, pid: nat)
    requires Invariant(w, a)
    ensures Invariant(w, Advance(w, a, pid)) && Added(a, Advance(w, a, pid))
    ensures Advance(w, a, pid).processes.Keys == a.processes.Keys
    ensures forall q :: q in a.processes ==> Advance(w, a, pid).processes[q].input == a.processes[q].input
  {
    hide Shared, Facts, Observed;
    if pid in a.processes && !Finished(a.processes[pid].stage) {
      AdvanceGood(w, a, pid);
      GoodStepKeeps(w, a, Advance(w, a, pid), pid);
    }
  }

  /** A session directory as `initialize_session` leaves it. */
  function FreshDisk(s: Setting): Disk {
    Disk(map[s.digest(ProducerDoc) := ProducerDoc, s.digest(VerifierSpecDoc(s.meta.verifier)) := VerifierSpecDoc(s.meta.verifier)],
         map[], None, 0, map[], map[], map[], map[], map[], 0)
  }

  /** Any hook processes, none of which has started. */
  function Launched(s: Setting, inputs: map<nat, HookInput>): System {
    System(FreshDisk(s), map pid | pid in inputs :: Process(inputs[pid], Ready, 0, 0, 0), map[], map[])
  }

  ghost predicate Initialized(s: Setting) {
    && s.digest(ProducerDoc) != s.digest(VerifierSpecDoc(s.meta.verifier))
    && s.meta.producerRef == Ref(s.digest(ProducerDoc), ProducerSource, s.meta.session, ProducerAt)
    && s.meta.configRef == Ref(s.digest(VerifierSpecDoc(s.meta.verifier)), ConfigSource, s.meta.session, ConfigAt)
    && s.meta.specHash == s.meta.configRef.hash
  }

  lemma ReadyFacts(w: World, sys: System, pid: nat, p: Process)
    requires p.stage == Ready && p.stored == 0
    ensures Facts(w, sys, pid, p)
  {
    hide Observed, Stored, FilesStored, TextOf, EventOf, EventProvenance, CheckpointOf, CheckpointProvenance, CaptureNote, ManifestOf, PreHook, ResultHook, Op, ReceiptProvenance;
  }

  lemma FreshSound(s: Setting)
    requires Initialized(s)
    ensures Sound(s, FreshDisk(s), map[])
  {
    hide EventSound, CheckpointSound, PendingSound, ReceiptSound;
  }

  lemma LaunchedShared(w: World, inputs: map<nat, HookInput>)
    requires Initialized(w.s)
    ensures Shared(w, Launched(w.s, inputs))
  {
    hide Initialized, Sound, ReceiptOwned;
    FreshSound(w.s);
  }

  lemma LaunchedInvariant(w: World, inputs: map<nat, HookInput>)
    requires Initialized(w.s)
    ensures Invariant(w, Launched(w.s, inputs))
  {
    hide Initialized, Shared, Facts, FreshDisk;
    var sys := Launched(w.s, inputs);
    LaunchedShared(w, inputs);
    forall pid | pid in sys.processes ensures Facts(w, sys, pid, sys.processes[pid]) {
      ReadyFacts(w, sys, pid, sys.processes[pid]);
    }
  }

  lemma AddedTransitive(a: System, b: System, c: System)
    requires Added(a, b) && Added(b, c)
    ensures Added(a, c)
  {
    GrowsTransitive(a.disk, b.disk, c.disk);
  }

  /** Every interleaving keeps the invariant and loses nothing. */
  lemma {:induction false} RunKeeps(w: World, sys: System, schedule: seq<nat>)
    requires Invariant(w, sys)
    ensures var end := Run(w, sys, schedule);
      && Invariant(w, end) && Added(sys, end) && end.processes.Keys == sys.processes.Keys
      && forall pid :: pid in sys.processes ==> end.processes[pid].input == sys.processes[pid].input
    decreases |schedule|
  {
    if schedule != [] {
      hide Invariant, Added, Advance;
      var next := Advance(w, sys, schedule[0]);
      AdvanceKeeps(w, sys, schedule[0]);
      RunKeeps(w, next, schedule[1..]);
      AddedTransitive(sys, next, Run(w, next, schedule[1..]));
    } else {
      hide Invariant;
    }
  }

  lemma {:induction false} RunSplit(w: World, sys: System, a: seq<nat>, b: seq<nat>)
    ensures Run(w, sys, a + b) == Run(w, Run(w, sys, a), b)
    decreases |a|
  {
    hide Advance;
    if a == [] {
      assert a + b == b;
    } else {
      assert (a + b)[0] == a[0] && (a + b)[1..] == a[1..] + b;
      RunSplit(w, Advance(w, sys, a[0]), a[1..], b);
    }
  }

  /** No stored bytes ever change: between any two points of any interleaving the disk only gains files. */
  lemma StoredNeverChanges(w: World, inputs: map<nat, HookInput>, schedule: seq<nat>, k: nat, l: nat)
    requires Initialized(w.s) && k <= l <= |schedule|
    ensures Grows(Run(w, Launched(w.s, inputs), schedule[..k]).disk, Run(w, Launched(w.s, inputs), schedule[..l]).disk)
  {
    hide Launched, Invariant, Initialized;
    var sys := Launched(w.s, inputs);
    LaunchedInvariant(w, inputs);
    RunKeeps(w, sys, schedule[..k]);
    assert schedule[..k] + schedule[k..l] == schedule[..l];
    RunSplit(w, sys, schedule[..k], schedule[k..l]);
    RunKeeps(w, Run(w, sys, schedule[..k]), schedule[k..l]);
  }

  // ---- What every interleaving guarantees ----

  /** A record with a sequence number. */
  datatype Numbered = NumberedEvent(id: Id) | NumberedCheckpoint(id: Id) | NumberedReceipt(id: Id)

  predicate OnDisk(d: Disk, r: Numbered) {
    match r
    case NumberedEvent(id) => id in d.events
    case NumberedCheckpoint(id) => id in d.checkpoints
    case NumberedReceipt(id) => id in d.receipts && d.receipts[id].sequence.Some?
  }

  function NumberOf(d: Disk, r: Numbered): nat
    requires OnDisk(d, r)
  {
    match r
    case NumberedEvent(id) => d.events[id].sequence
    case NumberedCheckpoint(id) => d.checkpoints[id].sequence
    case NumberedReceipt(id) => d.receipts[id].sequence.value
  }

  lemma ReceiptOperation(w: World, sys: System, id: Id)
    requires Shared(w, sys) && id in sys.disk.receipts
    ensures var r := sys.disk.receipts[id];
      && r.sequence.Some? && r.sequence.value in sys.reserved && sys.reserved[r.sequence.value].1 == ForReceipt
      && var e := EventId(sys.reserved[r.sequence.value].0);
      e in sys.disk.events && sys.disk.events[e].operation.Some? && id == ReceiptId(sys.disk.events[e].operation.value.occurrence)
  {
    hide MarkersOwned, EventSound, CheckpointSound, PendingSound, ProvenanceClean, TrustedResult;
    assert ReceiptSound(w.s, sys.disk, id) && ReceiptOwned(sys, sys.disk.receipts[id]);
    var q :| Reports(w.s, sys.disk, sys.disk.receipts[id], q, sys.disk.receipts[id].operation.value.occurrence);
  }

  /** No two records of a session carry the same sequence number. */
  lemma NumbersDistinct(w: World, inputs: map<nat, HookInput>, schedule: seq<nat>, a: Numbered, b: Numbered)
    requires Initialized(w.s)
    requires var d := Run(w, Launched(w.s, inputs), schedule).disk;
      OnDisk(d, a) && OnDisk(d, b) && NumberOf(d, a) == NumberOf(d, b)
    ensures a == b
  {
    hide Launched, Facts, Initialized, Sound, MarkersOwned;
    LaunchedInvariant(w, inputs);
    RunKeeps(w, Launched(w.s, inputs), schedule);
    var sys := Run(w, Launched(w.s, inputs), schedule);
    if a.NumberedReceipt? { ReceiptOperation(w, sys, a.id); }
    if b.NumberedReceipt? { ReceiptOperation(w, sys, b.id); }
  }

  /** At most one receipt is ever stored for an operation, at any point of the run, although each result hook tests for
      it and writes it in separate steps. */
  lemma ReceiptOnce(w: World, inputs: map<nat, HookInput>, schedule: seq<nat>, k: nat, l: nat, a: Id, b: Id)
    requires Initialized(w.s) && k <= l <= |schedule|
    requires var first, last := Run(w, Launched(w.s, inputs), schedule[..k]).disk, Run(w, Launched(w.s, inputs), schedule[..l]).disk;
      && a in first.receipts && b in last.receipts && first.receipts[a].operation.Some? && last.receipts[b].operation.Some?
      && first.receipts[a].operation.value.occurrence == last.receipts[b].operation.value.occurrence
    ensures a == b && Run(w, Launched(w.s, inputs), schedule[..k]).disk.receipts[a] == Run(w, Launched(w.s, inputs), schedule[..l]).disk.receipts[b]
  {
    hide Launched, Facts, Initialized, Sound, MarkersOwned, NumbersOwned;
    StoredNeverChanges(w, inputs, schedule, k, l);
    LaunchedInvariant(w, inputs);
    RunKeeps(w, Launched(w.s, inputs), schedule[..l]);
    var last := Run(w, Launched(w.s, inputs), schedule[..l]);
    OneReceiptPerOperation(w.s, last.disk, last.captures, a, b);
  }

  // ---- Who writes what ----

  /** Process `pid` is the verifier's pre hook for this operation. */
  ghost predicate Announcer(s: Setting, inputs: map<nat, HookInput>, pid: nat, op: string) {
    pid in inputs && VerifierPre(s, inputs[pid]) && inputs[pid].payload.toolUseId == Some(op)
  }

  /** Process `pid` is a result hook of the verifier for this operation, with this result. */
  ghost predicate Concluder(s: Setting, inputs: map<nat, HookInput>, pid: nat, op: string, passed: bool, code: int) {
    pid in inputs && VerifierResult(s, inputs[pid], passed, code) && inputs[pid].payload.toolUseId == Some(op)
  }

  /** Every marker, checkpoint and receipt on disk was written for a payload that runs the verifier: a marker by a pre hook of
      its operation, a checkpoint by a pre hook, a receipt by a result hook of its operation that reported its result. Every
      event says what its own process's payload says. */
  ghost predicate WrittenFor(w: World, d: Disk, inputs: map<nat, HookInput>) {
    && (forall op :: op in d.pending ==> exists pid :: Announcer(w.s, inputs, pid, op))
    && (forall id :: id in d.checkpoints ==> id.CheckpointId? && id.n in inputs && VerifierPre(w.s, inputs[id.n]))
    && (forall id :: id in d.receipts ==> ReceiptWritten(w, inputs, id, d.receipts[id]))
    && (forall id :: id in d.events ==>
          id.EventId? && id.n in inputs && inputs[id.n].Hook? && EventTells(inputs[id.n].payload, d.events[id]))
  }

  ghost predicate ReceiptWritten(w: World, inputs: map<nat, HookInput>, id: Id, r: Receipt) {
    id.ReceiptId? && exists pid :: Concluder(w.s, inputs, pid, id.operation, r.passed, r.exitCode)
  }

  /** What one step of a process with this input may write. */
  ghost predicate StepWrites(w: World, a: Disk, b: Disk, pid: nat, i: HookInput) {
    && (b.events == a.events ||
          (i.Hook? && EventId(pid) in b.events && b.events == a.events[EventId(pid) := b.events[EventId(pid)]] && EventTells(i.payload, b.events[EventId(pid)])))
    && (b.checkpoints == a.checkpoints ||
          (VerifierPre(w.s, i) && CheckpointId(pid) in b.checkpoints && b.checkpoints == a.checkpoints[CheckpointId(pid) := b.checkpoints[CheckpointId(pid)]]))
    && (b.pending == a.pending ||
          (VerifierPre(w.s, i) && i.payload.toolUseId.Some? && i.payload.toolUseId.value in b.pending &&
           b.pending == a.pending[i.payload.toolUseId.value := b.pending[i.payload.toolUseId.value]]))
    && (b.receipts == a.receipts ||
          (i.Hook? && RunsVerifier(i.payload, w.s.meta.verifier) && i.payload.toolUseId.Some? && ReceiptId(i.payload.toolUseId.value) in b.receipts &&
           var r := b.receipts[ReceiptId(i.payload.toolUseId.value)];
           b.receipts == a.receipts[ReceiptId(i.payload.toolUseId.value) := r] && ReportsResult(i.payload, r.passed, r.exitCode)))
  }

  lemma QuietBlob(w: World, a: System, pid: nat, c: Content, next: Stage)
    requires pid in a.processes
    ensures SameRecords(a.disk, Raise(w, a, pid).disk) && SameRecords(a.disk, PutBlob(w, a, pid, c, next).disk)
  {
    hide RaiseCode;
  }

  lemma QuietProvenance(w: World, a: System, pid: nat, v: Provenance, next: Stage)
    requires pid in a.processes
    ensures SameRecords(a.disk, PutProvenance(w, a, pid, v, next).disk)
  {
    QuietBlob(w, a, pid, ProducerDoc, next);
    hide Raise, Conflicts, PutBlob;
  }

  lemma QuietReserve(a: System, pid: nat, purpose: Purpose, next: Stage)
    requires pid in a.processes
    ensures SameRecords(a.disk, Reserve(a, pid, purpose, next).disk) && Go(a, pid, next).disk == a.disk
  {
  }

  /** These parts of a step write no record. */
  lemma QuietParts(w: World, a: System, pid: nat)
    requires pid in a.processes
    ensures SameRecords(a.disk, Raise(w, a, pid).disk)
    ensures forall stage :: Go(a, pid, stage).disk == a.disk
    ensures forall purpose, next :: SameRecords(a.disk, Reserve(a, pid, purpose, next).disk)
    ensures forall c, next :: SameRecords(a.disk, PutBlob(w, a, pid, c, next).disk)
    ensures forall v, next :: SameRecords(a.disk, PutProvenance(w, a, pid, v, next).disk)
  {
    hide *;
    QuietBlob(w, a, pid, ProducerDoc, Ready);
    forall stage ensures Go(a, pid, stage).disk == a.disk { QuietReserve(a, pid, ForEvent, stage); }
    forall purpose, next ensures SameRecords(a.disk, Reserve(a, pid, purpose, next).disk) { QuietReserve(a, pid, purpose, next); }
    forall c, next ensures SameRecords(a.disk, PutBlob(w, a, pid, c, next).disk) { QuietBlob(w, a, pid, c, next); }
    forall v, next ensures SameRecords(a.disk, PutProvenance(w, a, pid, v, next).disk) { QuietProvenance(w, a, pid, v, next); }
  }

  lemma QuietWrites(w: World, a: Disk, b: Disk, pid: nat, i: HookInput)
    requires SameRecords(a, b)
    ensures StepWrites(w, a, b, pid, i)
  {
  }

  lemma EventStepQuiet(w: World, a: System, pid: nat)
    requires pid in a.processes && (a.processes[pid].stage != Provenanced || Observed(w, a.processes[pid].input).None?)
    ensures SameRecords(a.disk, AdvanceEvent(w, a, pid).disk)
  {
    QuietParts(w, a, pid);
    hide Observed, EventProvenance, EventOf, PutBlob, PutProvenance, Reserve, Raise;
  }

  lemma EventStepWrites(w: World, a: System, pid: nat)
    requires pid in a.processes
    ensures StepWrites(w, a.disk, AdvanceEvent(w, a, pid).disk, pid, a.processes[pid].input)
  {
    hide Sanitize, RecordedOperation, EventProvenance, Known, ToolEvent, PutBlob, PutProvenance, Reserve, Raise, SameRecords, VerifierPre, RunsVerifier,
      ReportsResult;
    var p, b := a.processes[pid], AdvanceEvent(w, a, pid);
    if p.stage != Provenanced || Observed(w, p.input).None? {
      EventStepQuiet(w, a, pid);
      QuietWrites(w, a.disk, b.disk, pid, p.input);
    } else {
      SanitizeExactly(p.input.payload, w.s.meta.verifier, w.hashText);
      OperationExactly(p.input.payload, w.s.meta.verifier, w.hashText);
      QuietParts(w, a, pid);
      if b == Raise(w, a, pid) { QuietWrites(w, a.disk, b.disk, pid, p.input); }
    }
  }

  /** The steps of a pre hook that write neither its checkpoint nor its marker. */
  predicate PreQuiet(st: Stage) {
    st == EventStored || st == ManifestFiled || st == ManifestBlobbed || st == CaptureNoted || st == CheckpointProvenanceFiled ||
    st == CheckpointProvenanced || st == CheckpointFiled
  }

  lemma StoreNextQuiet(w: World, a: System, pid: nat, f: Found)
    requires pid in a.processes
    ensures SameRecords(a.disk, StoreNext(w, a, pid, f).disk)
  {
    QuietParts(w, a, pid);
    hide TextOf, ManifestOf, Raise;
  }

  /** The first step of a pre hook after its event: an exception, or storing what it found. */
  lemma StoreStep(w: World, a: System, pid: nat)
    requires pid in a.processes && a.processes[pid].stage == EventStored
    ensures AdvancePre(w, a, pid) == Raise(w, a, pid) ||
            (a.processes[pid].input.Hook? && a.processes[pid].input.found.Some? &&
             AdvancePre(w, a, pid) == StoreNext(w, a, pid, a.processes[pid].input.found.value))
  {
    hide Sanitize, TextOf, CaptureNote, ManifestOf, CheckpointProvenance, MakeCheckpoint, CheckpointOf, EventOf, PutBlob, PutProvenance, Reserve,
      Raise, StoreNext, Go, RecordedOperation, MakePending, Conflicts;
  }

  lemma StoreStepQuiet(w: World, a: System, pid: nat)
    requires pid in a.processes && a.processes[pid].stage == EventStored
    ensures SameRecords(a.disk, AdvancePre(w, a, pid).disk)
  {
    hide *;
    StoreStep(w, a, pid);
    QuietBlob(w, a, pid, ProducerDoc, Ready);
    var i := a.processes[pid].input;
    if i.Hook? && i.found.Some? { StoreNextQuiet(w, a, pid, i.found.value); }
  }

  lemma PreStepQuiet(w: World, a: System, pid: nat)
    requires pid in a.processes && PreQuiet(a.processes[pid].stage)
    ensures SameRecords(a.disk, AdvancePre(w, a, pid).disk)
  {
    if a.processes[pid].stage == EventStored {
      StoreStepQuiet(w, a, pid);
    } else {
      QuietParts(w, a, pid);
      hide Op, Observed, TextOf, CaptureNote, ManifestOf, CheckpointProvenance, MakeCheckpoint, CheckpointOf, EventOf, PutBlob, PutProvenance, Reserve,
        Raise, StoreNext, Go, SameRecords, RecordedOperation, MakePending, Conflicts;
      SameDisk(a.disk);
    }
  }

  lemma SameDisk(d: Disk)
    ensures SameRecords(d, d)
  {
  }

  lemma PreStepWrites(w: World, a: System, pid: nat)
    requires pid in a.processes && VerifierPre(w.s, a.processes[pid].input) && 7 <= Rank(a.processes[pid].stage) <= 15
    ensures StepWrites(w, a.disk, AdvancePre(w, a, pid).disk, pid, a.processes[pid].input)
  {
    hide Sanitize, RecordedOperation, ReportsResult, TextOf, CaptureNote, CheckpointProvenance, MakePending, EventOf, Known, ToolEvent, PutBlob, PutProvenance,
      Reserve, Raise, SameRecords, StoreNext, RunsVerifier, EventTells;
    var p, b := a.processes[pid], AdvancePre(w, a, pid);
    if PreQuiet(p.stage) {
      PreStepQuiet(w, a, pid);
      QuietWrites(w, a.disk, b.disk, pid, p.input);
    } else {
      if Observed(w, p.input).Some? { OperationExactly(p.input.payload, w.s.meta.verifier, w.hashText); }
      QuietParts(w, a, pid);
      if b == Raise(w, a, pid) { QuietWrites(w, a.disk, b.disk, pid, p.input); }
    }
  }

  lemma ResultStepQuiet(w: World, a: System, pid: nat)
    requires pid in a.processes && a.processes[pid].stage != ReceiptNumbered
    ensures SameRecords(a.disk, AdvanceResult(w, a, pid).disk)
  {
    QuietParts(w, a, pid);
    hide Observed, TrustedResult, ReceiptProvenance, ReceiptOf, MarkerFits, CheckpointFits, PutBlob, PutProvenance, PutReceipt, Reserve, Raise, Go, SameRecords, RecordedOperation;
    SameDisk(a.disk);
  }

  lemma ResultStepWrites(w: World, a: System, pid: nat)
    requires pid in a.processes && a.processes[pid].input.Hook? && RunsVerifier(a.processes[pid].input.payload, w.s.meta.verifier)
    ensures StepWrites(w, a.disk, AdvanceResult(w, a, pid).disk, pid, a.processes[pid].input)
  {
    hide Sanitize, RecordedOperation, TrustedResult, RunsVerifier, ReportsResult, ReceiptProvenance, RecordRef, Known, ToolEvent, Raise, SameRecords, EventTells, VerifierPre;
    var p, b := a.processes[pid], AdvanceResult(w, a, pid);
    if p.stage != ReceiptNumbered {
      ResultStepQuiet(w, a, pid);
      QuietWrites(w, a.disk, b.disk, pid, p.input);
    } else {
      QuietParts(w, a, pid);
      SameDisk(a.disk);
      if SameRecords(a.disk, b.disk) { QuietWrites(w, a.disk, b.disk, pid, p.input); }
      if Observed(w, p.input).Some? {
        OperationExactly(p.input.payload, w.s.meta.verifier, w.hashText);
        var trusted := TrustedResult(Observed(w, p.input).value);
        if trusted.Some? { EligibleExactly(p.input.payload, w.s.meta.verifier, w.hashText, trusted.value.0, trusted.value.1); }
      }
    }
  }

  /** Whatever step a process takes, it writes no more than its payload allows. */
  lemma AdvanceWrites(w: World, a: System, pid: nat)
    requires pid in a.processes && Invariant(w, a)
    ensures StepWrites(w, a.disk, Advance(w, a, pid).disk, pid, a.processes[pid].input)
  {
    hide AdvanceEvent, AdvancePre, AdvanceResult, StepWrites, Sanitize, TrustedResult, Shared, Facts, Go, Observed, VerifierPre, RunsVerifier, IsExactPre;
    var p := a.processes[pid];
    SameWrites(w, a.disk, pid, p.input);
    EventStepWrites(w, a, pid);
    QuietParts(w, a, pid);
    if !Finished(p.stage) && !BeforeEvent(p.stage) {
      PathOf(w, a, pid);
      PreExactly(w.s, p.input);
      if p.input.Hook? {
        VerifierExactly(p.input.payload, w.s.meta.verifier);
        if RunsVerifier(p.input.payload, w.s.meta.verifier) { ResultStepWrites(w, a, pid); }
        if VerifierPre(w.s, p.input) { PreStepWrites(w, a, pid); }
      }
      hide ResultHook;
    }
  }

  lemma SameWrites(w: World, d: Disk, pid: nat, i: HookInput)
    ensures StepWrites(w, d, d, pid, i)
  {
  }

  /** Markers, checkpoints and receipts are untouched, and the process has not been stopped with a code other than 0. */
  ghost predicate LeavesVerifier(a: System, b: System, pid: nat) {
    && b.disk.pending == a.disk.pending && b.disk.checkpoints == a.disk.checkpoints && b.disk.receipts == a.disk.receipts
    && pid in b.processes && (b.processes[pid].stage.Stopped? ==> b.processes[pid].stage.code == 0)
  }

  /** A process whose payload is anything but the verifier in the foreground leaves markers, checkpoints and receipts as they
      are at every one of its steps, and if it stops it stops with code 0. */
  lemma OthersWriteNothing(w: World, a: System, pid: nat)
    requires Invariant(w, a) && pid in a.processes
    requires var i := a.processes[pid].input;
      !i.Hook? || i.payload.toolName != Some("Bash") || !i.payload.inputIsObject || i.payload.command != Some(w.s.meta.verifier) ||
      i.payload.background == Some(true)
    ensures LeavesVerifier(a, Advance(w, a, pid), pid)
  {
    hide Shared, EventFacts, PreFacts, ResultFacts, Advance, EventTells, ReportsResult;
    AdvanceWrites(w, a, pid);
    AdvanceKeeps(w, a, pid);
    PreExactly(w.s, a.processes[pid].input);
    assert Facts(w, Advance(w, a, pid), pid, Advance(w, a, pid).processes[pid]);
  }

  lemma WrittenStays(w: World, a: Disk, b: Disk, inputs: map<nat, HookInput>, pid: nat)
    requires WrittenFor(w, a, inputs) && pid in inputs && StepWrites(w, a, b, pid, inputs[pid])
    ensures WrittenFor(w, b, inputs)
  {
    hide EventTells, ReportsResult, RunsVerifier;
    var i := inputs[pid];
    forall op | op in b.pending ensures exists q :: Announcer(w.s, inputs, q, op) {
      if b.pending != a.pending && op == i.payload.toolUseId.value { assert Announcer(w.s, inputs, pid, op); }
    }
    forall id | id in b.receipts ensures ReceiptWritten(w, inputs, id, b.receipts[id]) {
      if b.receipts == a.receipts {
        assert ReceiptWritten(w, inputs, id, a.receipts[id]);
      } else if id == ReceiptId(i.payload.toolUseId.value) {
        assert Concluder(w.s, inputs, pid, id.operation, b.receipts[id].passed, b.receipts[id].exitCode);
      } else {
        assert ReceiptWritten(w, inputs, id, a.receipts[id]);
      }
    }
  }

  /** In every interleaving every record was written for a payload that allows it. */
  lemma {:induction false} RunWritten(w: World, sys: System, inputs: map<nat, HookInput>, schedule: seq<nat>)
    requires Invariant(w, sys) && WrittenFor(w, sys.disk, inputs)
    requires forall pid :: pid in sys.processes ==> pid in inputs && sys.processes[pid].input == inputs[pid]
    ensures WrittenFor(w, Run(w, sys, schedule).disk, inputs)
    decreases |schedule|
  {
    hide Invariant, Added, Advance, WrittenFor, StepWrites;
    if schedule != [] {
      var pid := schedule[0];
      AdvanceKeeps(w, sys, pid);
      if pid in sys.processes {
        AdvanceWrites(w, sys, pid);
        WrittenStays(w, sys.disk, Advance(w, sys, pid).disk, inputs, pid);
      } else {
        IdleStep(w, sys, pid);
      }
      RunWritten(w, Advance(w, sys, pid), inputs, schedule[1..]);
    }
  }

  lemma IdleStep(w: World, sys: System, pid: nat)
    requires pid !in sys.processes
    ensures Advance(w, sys, pid) == sys
  {
  }

  /** So does every interleaving from the start of a session. */
  lemma WrittenInEveryRun(w: World, inputs: map<nat, HookInput>, schedule: seq<nat>)
    requires Initialized(w.s)
    ensures WrittenFor(w, Run(w, Launched(w.s, inputs), schedule).disk, inputs)
  {
    hide Initialized, Invariant, Run;
    LaunchedInvariant(w, inputs);
    RunWritten(w, Launched(w.s, inputs), inputs, schedule);
  }

  /** The hook process that wrote a marker is the one whose event the marker names, and it captured the bound state. */
  lemma MarkerWriter(w: World, sys: System, op: string)
    requires Invariant(w, sys) && op in sys.disk.pending
    ensures var writer := sys.disk.pending[op].preEventId;
      && writer.EventId? && writer.n in sys.processes && sys.processes[writer.n].stage == Paired
      && VerifierPre(w.s, sys.processes[writer.n].input) && sys.processes[writer.n].input.payload.toolUseId == Some(op)
      && sys.processes[writer.n].input.found.Some? && op in sys.captures && sys.captures[op] == sys.processes[writer.n].input.found.value
  {
    hide Sound, NumbersOwned, Facts, Sanitize, RecordedOperation, RunsVerifier, FoundManifestHash, ProvenanceClean, Stored;
    var writer := sys.disk.pending[op].preEventId;
    var p := sys.processes[writer.n];
    assert Facts(w, sys, writer.n, p);
    PairedProcess(w, sys, writer.n, p);
    SoundPending(w.s, sys.disk, sys.captures, op);
    VerifierExactly(p.input.payload, w.s.meta.verifier);
    SanitizeExactly(p.input.payload, w.s.meta.verifier, w.hashText);
    OperationExactly(p.input.payload, w.s.meta.verifier, w.hashText);
  }

  /** A process that has written its marker. */
  lemma PairedProcess(w: World, sys: System, pid: nat, p: Process)
    requires Facts(w, sys, pid, p) && p.stage == Paired
    ensures PreHook(w, p) && EventId(pid) in sys.disk.events && sys.disk.events[EventId(pid)].operation == Op(w, p.input)
    ensures var op := Op(w, p.input).value.occurrence; op in sys.captures && sys.captures[op] == p.input.found.value
  {
    hide ResultFacts, TextOf, Stored, FilesStored, CheckpointOf, CheckpointProvenance, ManifestOf, Sanitize, RecordedOperation, EventProvenance;
  }

  /** What a receipt is bound to: the state captured by the pre hook of its own operation, in this session and its one
      external session, with pre-event, checkpoint and result event before it in sequence. */
  ghost predicate BoundReceipt(w: World, d: Disk, inputs: map<nat, HookInput>, r: Receipt) {
    && r.operation.Some? && r.operation.value.occurrence in d.pending
    && var op := r.operation.value.occurrence;
    var writer := d.pending[op].preEventId;
    && r.session == w.s.meta.session && d.external == Some(d.pending[op].externalHash) && (r.passed <==> r.exitCode == 0)
    && writer.EventId? && Announcer(w.s, inputs, writer.n, op) && inputs[writer.n].found.Some?
    && FoundManifestHash(w.s.digest, inputs[writer.n].found.value) == Some(r.testedHash)
    && (exists pid :: Concluder(w.s, inputs, pid, op, r.passed, r.exitCode))
    && (exists pre, q ::
          PreOf(d, pre, op) && ResultOf(d, q, op) && r.checkpointId in d.checkpoints && r.sequence.Some?
          && d.events[pre].sequence < d.checkpoints[r.checkpointId].sequence < r.sequence.value
          && d.events[q].sequence < r.sequence.value
          && TrustedResult(ObservationOf(d, d.events[q]).value) == Some((r.passed, r.exitCode)))
  }

  lemma ReceiptNamed(w: World, sys: System, id: Id)
    requires Shared(w, sys) && id in sys.disk.receipts
    ensures var r := sys.disk.receipts[id]; r.operation.Some? && id == ReceiptId(r.operation.value.occurrence)
  {
    hide NumbersOwned, MarkersOwned, EventSound, CheckpointSound, PendingSound, ProvenanceClean, TrustedResult, Reports;
    assert ReceiptSound(w.s, sys.disk, id);
  }

  lemma BoundNow(w: World, sys: System, inputs: map<nat, HookInput>, id: Id)
    requires Invariant(w, sys) && id in sys.disk.receipts && ReceiptWritten(w, inputs, id, sys.disk.receipts[id])
    requires forall pid :: pid in sys.processes ==> pid in inputs && sys.processes[pid].input == inputs[pid]
    ensures BoundReceipt(w, sys.disk, inputs, sys.disk.receipts[id])
  {
    hide Sound, NumbersOwned, MarkersOwned, Facts, TrustedResult, FoundManifestHash, VerifierPre, Concluder, PreOf, ResultOf, ObservationOf;
    ReceiptNamed(w, sys, id);
    var pre, q := ReceiptEvents(w.s, sys.disk, sys.captures, id);
    MarkerWriter(w, sys, sys.disk.receipts[id].operation.value.occurrence);
  }

  /** Every receipt of every interleaving is bound to what it tested. */
  lemma ReceiptBoundInEveryRun(w: World, inputs: map<nat, HookInput>, schedule: seq<nat>, id: Id)
    requires Initialized(w.s) && id in Run(w, Launched(w.s, inputs), schedule).disk.receipts
    ensures var d := Run(w, Launched(w.s, inputs), schedule).disk; BoundReceipt(w, d, inputs, d.receipts[id])
  {
    hide Initialized, Invariant, BoundReceipt, Added, Run, FreshDisk, ReceiptWritten;
    LaunchedInvariant(w, inputs);
    RunKeeps(w, Launched(w.s, inputs), schedule);
    WrittenInEveryRun(w, inputs, schedule);
    BoundNow(w, Run(w, Launched(w.s, inputs), schedule), inputs, id);
  }

  /** The exit code of a process that has returned. */
  function ExitOf(st: Stage): Option<int> {
    if st == Paired || st == Receipted then Some(0) else if st.Stopped? then Some(st.code) else None
  }

  /** How a hook may return: it blocks the tool call only as a pre hook of the verifier, and such a hook that lets the
      call through has stored its event, the checkpoint of what it found, and the marker that ties the two. */
  ghost predicate ReturnsSafely(w: World, d: Disk, pid: nat, i: HookInput, code: Option<int>) {
    && (code.Some? ==> code.value == 0 || (code.value == 2 && VerifierPre(w.s, i)))
    && (code.Some? && code.value == 0 && VerifierPre(w.s, i) ==>
          && i.found.Some? && EventId(pid) in d.events && CheckpointId(pid) in d.checkpoints
          && FoundManifestHash(w.s.digest, i.found.value) == Some(d.checkpoints[CheckpointId(pid)].manifestHash)
          && i.payload.toolUseId.Some? && i.payload.toolUseId.value in d.pending
          && var m := d.pending[i.payload.toolUseId.value];
          && m.preEventId == EventId(pid) && m.checkpointId in d.checkpoints
          && m.testedHash == d.checkpoints[m.checkpointId].manifestHash == d.checkpoints[CheckpointId(pid)].manifestHash)
  }

  /** In every interleaving every hook returns safely. */
  lemma PreHookDurable(w: World, inputs: map<nat, HookInput>, schedule: seq<nat>, pid: nat)
    requires Initialized(w.s) && pid in inputs
    ensures var sys := Run(w, Launched(w.s, inputs), schedule);
      pid in sys.processes && ReturnsSafely(w, sys.disk, pid, inputs[pid], ExitOf(sys.processes[pid].stage))
  {
    hide Initialized, Shared, Facts, ReturnsSafely;
    LaunchedInvariant(w, inputs);
    RunKeeps(w, Launched(w.s, inputs), schedule);
    var sys := Run(w, Launched(w.s, inputs), schedule);
    hide Launched, Run;
    ExitFacts(w, sys, pid, sys.processes[pid]);
  }

  lemma ExitFacts(w: World, sys: System, pid: nat, p: Process)
    requires Facts(w, sys, pid, p) && Shared(w, sys)
    ensures ReturnsSafely(w, sys.disk, pid, p.input, ExitOf(p.stage))
  {
    hide Sound, NumbersOwned, MarkersOwned, CanonicalText, TerminationOf, FilesStored, Stored, CheckpointProvenance, PendingSound;
    if p.stage == Paired {
      var op := Op(w, p.input).value.occurrence;
      SoundPending(w.s, sys.disk, sys.captures, op);
      assert sys.disk.checkpoints[CheckpointId(pid)] == CheckpointOf(w, pid, p.input.found.value, op, p.m);
      PendingTested(w.s, sys.disk, sys.captures, op);
    }
  }

  lemma PendingTested(s: Setting, d: Disk, captures: map<string, Found>, op: string)
    requires op in d.pending && PendingSound(s, d, captures, op)
    ensures d.pending[op].checkpointId in d.checkpoints && d.pending[op].testedHash == d.checkpoints[d.pending[op].checkpointId].manifestHash
  {
    hide FoundManifestHash;
  }

  lemma ReceiptedFacts(w: World, sys: System, pid: nat, p: Process)
    requires Facts(w, sys, pid, p) && p.stage == Receipted
    ensures p.input.Hook? && p.input.payload.toolUseId.Some? && RunsVerifier(p.input.payload, w.s.meta.verifier)
    ensures ReceiptId(p.input.payload.toolUseId.value) in sys.disk.receipts
  {
    hide Sanitize, RecordedOperation, PreFacts, EventFacts, TrustedResult;
    VerifierExactly(p.input.payload, w.s.meta.verifier);
    OperationExactly(p.input.payload, w.s.meta.verifier, w.hashText);
  }

  /** A result hook that ran to its end leaves the receipt of its operation on disk, its own or another process's. */
  lemma ResultHookDurable(w: World, inputs: map<nat, HookInput>, schedule: seq<nat>, pid: nat)
    requires Initialized(w.s) && pid in inputs
    ensures var sys := Run(w, Launched(w.s, inputs), schedule);
      && pid in sys.processes
      && (sys.processes[pid].stage == Receipted ==>
            && inputs[pid].Hook? && inputs[pid].payload.toolUseId.Some? && RunsVerifier(inputs[pid].payload, w.s.meta.verifier)
            && ReceiptId(inputs[pid].payload.toolUseId.value) in sys.disk.receipts)
  {
    hide Initialized, Shared, Facts;
    LaunchedInvariant(w, inputs);
    RunKeeps(w, Launched(w.s, inputs), schedule);
    var sys := Run(w, Launched(w.s, inputs), schedule);
    hide Launched, Run;
    if sys.processes[pid].stage == Receipted { ReceiptedFacts(w, sys, pid, sys.processes[pid]); }
  }
}
