/** What a recorded session keeps true after every single step of every hook. */
module SessionInvariant {
  import opened Ordering
  import opened CanonicalManifest
  import opened ForensicsRecords

  /** The hash function and the session's fixed metadata. */
  datatype Setting = Setting(digest: Content -> Hash, meta: Metadata)

  predicate Stored(s: Setting, d: Disk, c: Content) {
    s.digest(c) in d.blobs && d.blobs[s.digest(c)] == c
  }

  /** `_verify_ref`. */
  predicate Verified(s: Setting, d: Disk, r: Ref) {
    r.session == s.meta.session && r.hash in d.blobs && s.digest(d.blobs[r.hash]) == r.hash
  }

  function RecordRef(s: Setting, category: Category, id: Id, c: Content): Ref {
    Ref(s.digest(c), RecordSource, s.meta.session, RecordAt(category, id))
  }

  predicate Cites(inputs: seq<Ref>, r: Ref) {
    exists i :: 0 <= i < |inputs| && Occurrence(inputs[i]) == Occurrence(r)
  }

  /** `_provenance_issue` finds nothing. */
  predicate ProvenanceClean(s: Setting, d: Disk, p: Option<Ref>, output: Id, required: seq<Ref>) {
    && p.Some? && Verified(s, d, p.value) && d.blobs[p.value.hash].ProvenanceDoc?
    && var doc := d.blobs[p.value.hash].provenance;
    && doc.producer == s.meta.producerRef && doc.output == output
    && (forall i :: 0 <= i < |required| ==> Cites(doc.inputs, required[i]))
    && (forall i :: 0 <= i < |doc.inputs| ==> Verified(s, d, doc.inputs[i]))
  }

  function ObservationOf(d: Disk, e: AgentEvent): Option<Observation> {
    if e.source.Some? && e.source.value.hash in d.blobs && d.blobs[e.source.value.hash].ObservationDoc?
    then Some(d.blobs[e.source.value.hash].observation) else None
  }

  predicate IsExactEvent(d: Disk, e: AgentEvent) {
    e.operation.Some? && ObservationOf(d, e).Some? && ObservationOf(d, e).value.commandClass == ExactVerifier
  }

  /** `id` records an exact verifier pre-event of the operation. */
  predicate PreOf(d: Disk, id: Id, op: string) {
    id in d.events && IsExactEvent(d, d.events[id]) && d.events[id].operation.value.occurrence == op && d.events[id].kind == PreToolUse
  }

  /** `id` records an exact verifier result event of the operation. */
  predicate ResultOf(d: Disk, id: Id, op: string) {
    id in d.events && IsExactEvent(d, d.events[id]) && d.events[id].operation.value.occurrence == op && IsResultEvent(d.events[id].kind)
  }

  // ---- The invariant ----

  ghost predicate ContentAddressed(s: Setting, d: Disk) {
    && (forall h :: h in d.blobs ==> s.digest(d.blobs[h]) == h)
    && (forall h :: h in d.manifests ==> s.digest(d.manifests[h]) == h)
  }

  ghost predicate ConfigSound(s: Setting, d: Disk) {
    && s.meta.producerRef == Ref(s.digest(ProducerDoc), ProducerSource, s.meta.session, ProducerAt)
    && s.meta.configRef == Ref(s.digest(VerifierSpecDoc(s.meta.verifier)), ConfigSource, s.meta.session, ConfigAt)
    && s.meta.specHash == s.meta.configRef.hash
    && Stored(s, d, ProducerDoc) && Stored(s, d, VerifierSpecDoc(s.meta.verifier))
  }

  ghost predicate EventSound(s: Setting, d: Disk, id: Id)
    requires id in d.events
  {
    var e := d.events[id];
    && e.id == id && id.EventId? && e.session == s.meta.session && e.producer == s.meta.producerRef
    && e.sequence <= d.sequence
    && ObservationOf(d, e).Some?
    && var o := ObservationOf(d, e).value;
    && Stored(s, d, ObservationDoc(o, e.sequence))
    && e.source == Some(Ref(s.digest(ObservationDoc(o, e.sequence)), HookSanitized, s.meta.session, HookObservation(e.sequence)))
    && e.kind == o.event && e.operation == RecordedOperation(o) && e.timestamp == o.observedAt
    && d.external == Some(o.externalHash) && s.meta.validatedProfile
    && ProvenanceClean(s, d, e.provenance, id, [e.source.value])
  }

  ghost predicate CheckpointSound(s: Setting, d: Disk, id: Id)
    requires id in d.checkpoints
  {
    var c := d.checkpoints[id];
    && c.id == id && id.CheckpointId? && c.session == s.meta.session && c.producer == s.meta.producerRef
    && c.sequence <= d.sequence
    && CanonicalText(c.gitBase, EntriesOf(c.paths)).Ok?
    && var m := ManifestDoc(CanonicalText(c.gitBase, EntriesOf(c.paths)).value);
    && c.manifestHash == s.digest(m) == c.manifestRef.hash && Stored(s, d, m)
    && c.manifestHash in d.manifests && d.manifests[c.manifestHash] == m
    && (forall i :: 0 <= i < |c.paths| ==>
          (Verified(s, d, c.paths[i].stateRef) &&
           (c.paths[i].contentRef.Some? ==> Verified(s, d, c.paths[i].contentRef.value))))
    && ProvenanceClean(s, d, c.provenance, id, [c.manifestRef])
  }

  /** A pending marker names the one pre-event and the checkpoint of its operation; `found` is the repository the
      pre hook of that operation captured. */
  ghost predicate PendingSound(s: Setting, d: Disk, captures: map<string, Found>, op: string)
    requires op in d.pending
  {
    var p := d.pending[op];
    && PreOf(d, p.preEventId, op) && p.checkpointId in d.checkpoints && op in captures
    && var e := d.events[p.preEventId];
    var c := d.checkpoints[p.checkpointId];
    && p.preEventRef == RecordRef(s, Events, p.preEventId, EventDoc(e)) && Stored(s, d, EventDoc(e))
    && p.checkpointRef == RecordRef(s, Checkpoints, p.checkpointId, CheckpointDoc(c)) && Stored(s, d, CheckpointDoc(c))
    && p.testedHash == c.manifestHash && FoundManifestHash(s.digest, captures[op]) == Some(c.manifestHash)
    && p.command == s.meta.verifier && p.specHash == s.meta.specHash && p.session == s.meta.session && p.toolUseId == op
    && d.external == Some(p.externalHash) && p.preSequence == e.sequence < c.sequence && p.startedAt == e.timestamp
  }

  /** `q` is the result event a receipt reports. */
  ghost predicate Reports(s: Setting, d: Disk, r: Receipt, q: Id, op: string) {
    && ResultOf(d, q, op)
    && var e := d.events[q];
    var ref := RecordRef(s, Events, q, EventDoc(e));
    && Stored(s, d, EventDoc(e))
    && TrustedResult(ObservationOf(d, e).value) == Some((r.passed, r.exitCode))
    && r.passedRefs == [ref] && r.exitCodeRefs == [ref] && r.finishedRefs == [ref] && r.finishedAt == e.timestamp
    && r.sequence.Some? && e.sequence < r.sequence.value
    && op in d.pending
    && ProvenanceClean(s, d, r.provenance, r.id,
         [d.pending[op].preEventRef, d.pending[op].checkpointRef, ref, s.meta.configRef])
  }

  ghost predicate ReceiptSound(s: Setting, d: Disk, id: Id)
    requires id in d.receipts
  {
    var r := d.receipts[id];
    && r.id == id && r.operation.Some? && id == ReceiptId(r.operation.value.occurrence)
    && r.session == s.meta.session && r.producer == s.meta.producerRef
    && r.specHash == s.meta.specHash && r.configRef == Some(s.meta.configRef) && r.command == s.meta.verifier
    && var op := r.operation.value.occurrence;
    && op in d.pending && r.checkpointId == d.pending[op].checkpointId && r.testedHash == d.pending[op].testedHash
    && r.startedAt == d.pending[op].startedAt && r.startedRefs == [d.pending[op].preEventRef]
    && r.sequence.Some? && r.sequence.value <= d.sequence
    && r.checkpointId in d.checkpoints && d.checkpoints[r.checkpointId].sequence < r.sequence.value
    && (r.passed <==> r.exitCode == 0)
    && (exists q :: Reports(s, d, r, q, op))
  }

  ghost predicate Sound(s: Setting, d: Disk, captures: map<string, Found>) {
    && ContentAddressed(s, d) && ConfigSound(s, d)
    && (d.external.Some? ==> s.meta.validatedProfile)
    && (forall id :: id in d.events ==> EventSound(s, d, id))
    && (forall id :: id in d.checkpoints ==> CheckpointSound(s, d, id))
    && (forall op :: op in d.pending ==> PendingSound(s, d, captures, op))
    && (forall id :: id in d.receipts ==> ReceiptSound(s, d, id))
  }

  // ---- Facts survive the growth of the disk ----

  lemma ProvenanceStays(s: Setting, a: Disk, b: Disk, p: Option<Ref>, output: Id, required: seq<Ref>)
    requires Grows(a, b) && ProvenanceClean(s, a, p, output, required)
    ensures ProvenanceClean(s, b, p, output, required)
  {
  }

  lemma EventStays(s: Setting, a: Disk, b: Disk, id: Id)
    requires Grows(a, b) && id in a.events && EventSound(s, a, id)
    ensures EventSound(s, b, id)
  {
    ProvenanceStays(s, a, b, a.events[id].provenance, id, [a.events[id].source.value]);
  }

  lemma CheckpointStays(s: Setting, a: Disk, b: Disk, id: Id)
    requires Grows(a, b) && id in a.checkpoints && CheckpointSound(s, a, id)
    ensures CheckpointSound(s, b, id)
  {
    hide CanonicalText;
    ProvenanceStays(s, a, b, a.checkpoints[id].provenance, id, [a.checkpoints[id].manifestRef]);
  }

  lemma PendingStays(s: Setting, a: Disk, b: Disk, before: map<string, Found>, after: map<string, Found>, op: string)
    requires Grows(a, b) && MapGrows(before, after) && op in a.pending && PendingSound(s, a, before, op)
    ensures PendingSound(s, b, after, op)
  {
    hide FoundManifestHash, TrustedResult;
  }

  lemma ReportsStays(s: Setting, a: Disk, b: Disk, r: Receipt, q: Id, op: string)
    requires Grows(a, b) && Reports(s, a, r, q, op)
    ensures Reports(s, b, r, q, op)
  {
    var ref := RecordRef(s, Events, q, EventDoc(a.events[q]));
    ProvenanceStays(s, a, b, r.provenance, r.id, [a.pending[op].preEventRef, a.pending[op].checkpointRef, ref, s.meta.configRef]);
  }

  lemma ReceiptStays(s: Setting, a: Disk, b: Disk, id: Id)
    requires Grows(a, b) && id in a.receipts && ReceiptSound(s, a, id)
    ensures ReceiptSound(s, b, id)
  {
    hide ProvenanceClean, TrustedResult;
    var r := a.receipts[id];
    var op := r.operation.value.occurrence;
    var q :| Reports(s, a, r, q, op);
    ReportsStays(s, a, b, r, q, op);
  }

  /** A growing disk stays sound when what was added to it is sound. */
  lemma SoundStays(s: Setting, a: Disk, b: Disk, before: map<string, Found>, after: map<string, Found>)
    requires Sound(s, a, before) && Grows(a, b) && MapGrows(before, after) && ContentAddressed(s, b)
    requires b.external.Some? ==> s.meta.validatedProfile
    requires forall id :: id in b.events && id !in a.events ==> EventSound(s, b, id)
    requires forall id :: id in b.checkpoints && id !in a.checkpoints ==> CheckpointSound(s, b, id)
    requires forall op :: op in b.pending && op !in a.pending ==> PendingSound(s, b, after, op)
    requires forall id :: id in b.receipts && id !in a.receipts ==> ReceiptSound(s, b, id)
    ensures Sound(s, b, after)
  {
    hide EventSound, CheckpointSound, PendingSound, ReceiptSound;
    forall id | id in b.events ensures EventSound(s, b, id) { if id in a.events { EventStays(s, a, b, id); } }
    forall id | id in b.checkpoints ensures CheckpointSound(s, b, id) { if id in a.checkpoints { CheckpointStays(s, a, b, id); } }
    forall op | op in b.pending ensures PendingSound(s, b, after, op) {
      if op in a.pending { PendingStays(s, a, b, before, after, op); }
    }
    forall id | id in b.receipts ensures ReceiptSound(s, b, id) { if id in a.receipts { ReceiptStays(s, a, b, id); } }
  }

  predicate Conflicts<K(==), V(==)>(m: map<K, V>, k: K, v: V) { k in m && m[k] != v }

  // ---- Each kind of write keeps the invariant ----

  lemma BlobAdded(s: Setting, a: Disk, captures: map<string, Found>, c: Content)
    requires Sound(s, a, captures) && !Conflicts(a.blobs, s.digest(c), c)
    ensures var b := a.(blobs := a.blobs[s.digest(c) := c]); Sound(s, b, captures) && Grows(a, b) && Stored(s, b, c)
  {
    hide EventSound, CheckpointSound, PendingSound, ReceiptSound;
    SoundStays(s, a, a.(blobs := a.blobs[s.digest(c) := c]), captures, captures);
  }

  lemma SequenceAdvanced(s: Setting, a: Disk, captures: map<string, Found>, n: nat)
    requires Sound(s, a, captures) && a.sequence <= n
    ensures Sound(s, a.(sequence := n), captures) && Grows(a, a.(sequence := n))
  {
    hide EventSound, CheckpointSound, PendingSound, ReceiptSound;
    SoundStays(s, a, a.(sequence := n), captures, captures);
  }

  lemma ExternalBound(s: Setting, a: Disk, captures: map<string, Found>, h: Hash)
    requires Sound(s, a, captures) && a.external == None && s.meta.validatedProfile
    ensures Sound(s, a.(external := Some(h)), captures) && Grows(a, a.(external := Some(h)))
  {
    hide EventSound, CheckpointSound, PendingSound, ReceiptSound;
    SoundStays(s, a, a.(external := Some(h)), captures, captures);
  }

  lemma ProvenanceAdded(s: Setting, a: Disk, captures: map<string, Found>, id: Id, p: Provenance)
    requires Sound(s, a, captures) && id !in a.provenance
    ensures var b := a.(provenance := a.provenance[id := p]); Sound(s, b, captures) && Grows(a, b)
  {
    hide EventSound, CheckpointSound, PendingSound, ReceiptSound;
    SoundStays(s, a, a.(provenance := a.provenance[id := p]), captures, captures);
  }

  lemma ManifestAdded(s: Setting, a: Disk, captures: map<string, Found>, h: Hash, c: Content)
    requires Sound(s, a, captures) && h == s.digest(c) && !Conflicts(a.manifests, h, c)
    ensures var b := a.(manifests := a.manifests[h := c]); Sound(s, b, captures) && Grows(a, b)
  {
    hide EventSound, CheckpointSound, PendingSound, ReceiptSound;
    SoundStays(s, a, a.(manifests := a.manifests[h := c]), captures, captures);
  }

  lemma EventAdded(s: Setting, a: Disk, captures: map<string, Found>, id: Id, e: AgentEvent)
    requires Sound(s, a, captures) && id !in a.events
    requires EventSound(s, a.(events := a.events[id := e]), id)
    ensures var b := a.(events := a.events[id := e]); Sound(s, b, captures) && Grows(a, b)
  {
    hide EventSound, CheckpointSound, PendingSound, ReceiptSound;
    SoundStays(s, a, a.(events := a.events[id := e]), captures, captures);
  }

  lemma CheckpointAdded(s: Setting, a: Disk, captures: map<string, Found>, id: Id, c: Checkpoint)
    requires Sound(s, a, captures) && id !in a.checkpoints
    requires CheckpointSound(s, a.(checkpoints := a.checkpoints[id := c]), id)
    ensures var b := a.(checkpoints := a.checkpoints[id := c]); Sound(s, b, captures) && Grows(a, b)
  {
    hide EventSound, CheckpointSound, PendingSound, ReceiptSound;
    SoundStays(s, a, a.(checkpoints := a.checkpoints[id := c]), captures, captures);
  }

  lemma PendingAdded(s: Setting, a: Disk, captures: map<string, Found>, op: string, p: Pending, found: Found)
    requires Sound(s, a, captures) && op !in a.pending && op !in captures
    requires PendingSound(s, a.(pending := a.pending[op := p]), captures[op := found], op)
    ensures var b := a.(pending := a.pending[op := p]); Sound(s, b, captures[op := found]) && Grows(a, b)
  {
    hide EventSound, CheckpointSound, PendingSound, ReceiptSound;
    SoundStays(s, a, a.(pending := a.pending[op := p]), captures, captures[op := found]);
  }

  lemma ReceiptAdded(s: Setting, a: Disk, captures: map<string, Found>, id: Id, r: Receipt)
    requires Sound(s, a, captures) && id !in a.receipts
    requires ReceiptSound(s, a.(receipts := a.receipts[id := r]), id)
    ensures var b := a.(receipts := a.receipts[id := r]); Sound(s, b, captures) && Grows(a, b)
  {
    hide EventSound, CheckpointSound, PendingSound, ReceiptSound;
    SoundStays(s, a, a.(receipts := a.receipts[id := r]), captures, captures);
  }

  // ---- What soundness says about receipts ----

  /** State binding: a stored receipt's tested manifest is the canonical manifest of the repository its own operation's
      pre hook captured, in this session and its one external session; its pass flag is "exit code zero"; and pre-event,
      checkpoint and result event come before it in sequence. */
  lemma ReceiptBinding(s: Setting, d: Disk, captures: map<string, Found>, id: Id)
    requires Sound(s, d, captures) && id in d.receipts
    ensures var r := d.receipts[id];
      && r.operation.Some? && r.operation.value.occurrence in captures && r.operation.value.occurrence in d.pending
      && var op := r.operation.value.occurrence;
      && FoundManifestHash(s.digest, captures[op]) == Some(r.testedHash)
      && r.session == s.meta.session && d.external == Some(d.pending[op].externalHash)
      && (r.passed <==> r.exitCode == 0)
      && exists pre, q :: PreOf(d, pre, op) && ResultOf(d, q, op) && r.checkpointId in d.checkpoints && r.sequence.Some?
           && d.events[pre].sequence < d.checkpoints[r.checkpointId].sequence < r.sequence.value
           && d.events[q].sequence < r.sequence.value
           && TrustedResult(ObservationOf(d, d.events[q]).value) == Some((r.passed, r.exitCode))
  {
    hide FoundManifestHash, PreOf, ResultOf, TrustedResult, ObservationOf, Sound;
    var pre, q := ReceiptEvents(s, d, captures, id);
  }

  /** The pre-event and the result event of a receipt. */
  lemma ReceiptEvents(s: Setting, d: Disk, captures: map<string, Found>, id: Id) returns (pre: Id, q: Id)
    requires Sound(s, d, captures) && id in d.receipts
    ensures var r := d.receipts[id];
      && r.operation.Some? && r.session == s.meta.session && (r.passed <==> r.exitCode == 0) && r.checkpointId in d.checkpoints && r.sequence.Some?
      && var op := r.operation.value.occurrence;
      && op in captures && op in d.pending && d.external == Some(d.pending[op].externalHash)
      && FoundManifestHash(s.digest, captures[op]) == Some(r.testedHash)
      && PreOf(d, pre, op) && ResultOf(d, q, op)
      && d.events[pre].sequence < d.checkpoints[r.checkpointId].sequence < r.sequence.value && d.events[q].sequence < r.sequence.value
      && TrustedResult(ObservationOf(d, d.events[q]).value) == Some((r.passed, r.exitCode))
  {
    hide FoundManifestHash, ProvenanceClean, EventSound, CheckpointSound, TrustedResult;
    var r := d.receipts[id];
    assert ReceiptSound(s, d, id);
    var op := r.operation.value.occurrence;
    assert PendingSound(s, d, captures, op);
    q :| Reports(s, d, r, q, op);
    pre := d.pending[op].preEventId;
  }

  /** A receipt stored under an operation's name is that operation's. */
  lemma NamedReceiptBinding(s: Setting, d: Disk, captures: map<string, Found>, op: string)
    requires Sound(s, d, captures) && ReceiptId(op) in d.receipts
    ensures op in captures && FoundManifestHash(s.digest, captures[op]) == Some(d.receipts[ReceiptId(op)].testedHash)
  {
    ReceiptBinding(s, d, captures, ReceiptId(op));
    assert ReceiptSound(s, d, ReceiptId(op));
  }

  /** At most one receipt per operation. */
  lemma OneReceiptPerOperation(s: Setting, d: Disk, captures: map<string, Found>, a: Id, b: Id)
    requires Sound(s, d, captures) && a in d.receipts && b in d.receipts
    requires d.receipts[a].operation.Some? && d.receipts[b].operation.Some?
    requires d.receipts[a].operation.value.occurrence == d.receipts[b].operation.value.occurrence
    ensures a == b
  {
    assert ReceiptSound(s, d, a) && ReceiptSound(s, d, b);
  }
}
