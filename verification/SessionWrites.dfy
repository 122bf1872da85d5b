/** The records a hook writes, and why each of them keeps the session invariant. */
module SessionWrites {
  import opened Ordering
  import opened CanonicalManifest
  import opened ForensicsRecords
  import opened SessionInvariant

  /** What one hook process is given. `found` is the repository its capture loop finds, or nothing when the capture
      fails. */
  datatype HookInput =
    | Unreadable
    | Malformed
    | Hook(payload: Payload, repoIdentity: Hash, found: Option<Found>)

  /** This input is the pre hook of the configured verifier. */
  predicate IsExactPre(s: Setting, i: HookInput) {
    i.Hook? && IsExactVerifier(i.payload, s.meta.verifier) && i.payload.event == Some(PreToolUse)
  }

  /** The hook gets as far as recording its event: a validated profile, this repository, a payload that can be
      translated, and no other external session bound. */
  predicate Observable(s: Setting, hashText: string -> Hash, d: Disk, i: HookInput) {
    && i.Hook? && s.meta.validatedProfile && i.repoIdentity == s.meta.repoIdentity
    && Sanitize(i.payload, s.meta.verifier, hashText).Some?
    && (d.external == None || d.external == Some(Sanitize(i.payload, s.meta.verifier, hashText).value.externalHash))
  }

  /** A root-scoped operation with a name, of which the pre-state has been captured (`captured`) or not yet. */
  predicate Correlates(d: Disk, o: Observation, captured: bool) {
    RecordedOperation(o).Some? && o.cwdScope == "." && (RecordedOperation(o).value.occurrence in d.pending <==> captured)
  }

  /** The observation reports the configured verifier's result, and the result is receipt-eligible. */
  predicate IsEligibleResult(s: Setting, i: HookInput, o: Observation) {
    i.Hook? && IsExactVerifier(i.payload, s.meta.verifier) && IsResultEvent(o.event) && TrustedResult(o).Some?
  }

  /** What the handler needs in order to do all of its work. */
  predicate Succeeds(s: Setting, hashText: string -> Hash, d: Disk, i: HookInput) {
    && Observable(s, hashText, d, i)
    && var o := Sanitize(i.payload, s.meta.verifier, hashText).value;
    && (IsExactPre(s, i) ==>
          Correlates(d, o, false) && i.found.Some? && FoundManifestHash(s.digest, i.found.value).Some?)
    && (IsEligibleResult(s, i, o) ==> Correlates(d, o, true))
  }

  /** `result` reports, from the repository root and in the same external session, on the operation `pre` announced. */
  predicate Answers(s: Setting, hashText: string -> Hash, pre: HookInput, result: HookInput) {
    && pre.Hook? && result.Hook? && result.repoIdentity == pre.repoIdentity && result.payload.sessionId == pre.payload.sessionId
    && result.payload.toolUseId == pre.payload.toolUseId && result.payload.cwdScope == "."
    && Sanitize(result.payload, s.meta.verifier, hashText).Some?
    && IsEligibleResult(s, result, Sanitize(result.payload, s.meta.verifier, hashText).value)
  }

  /** The answer to a pre hook that succeeded succeeds, once the pre hook's session is bound and its marker is there. */
  lemma AnswerSucceeds(s: Setting, hashText: string -> Hash, before: Disk, d: Disk, pre: HookInput, result: HookInput)
    requires Answers(s, hashText, pre, result) && IsExactPre(s, pre) && Succeeds(s, hashText, before, pre)
    requires pre.payload.toolUseId.Some? && pre.payload.toolUseId.value in d.pending
    requires d.external == Some(Sanitize(pre.payload, s.meta.verifier, hashText).value.externalHash)
    ensures Succeeds(s, hashText, d, result)
    ensures var o := Sanitize(result.payload, s.meta.verifier, hashText).value;
      IsEligibleResult(s, result, o) && RecordedOperation(o).Some? && RecordedOperation(o).value.occurrence == pre.payload.toolUseId.value
  {
    hide FoundManifestHash, TerminationOf, TrustedResult;
  }

  /** A captured path record for a found file. */
  function CapturedFrom(s: Setting, f: FoundFile, stateRef: Ref): CapturedPath {
    CapturedPath(f.path, f.kind, if f.bytes.Some? then Present else Deleted,
      if f.bytes.Some? then Some(f.executable) else None, stateRef,
      if f.bytes.Some?
      then Some(Ref(s.digest(FileDoc(f.bytes.value)), CapturedFileSource, s.meta.session, FileAt(f.path))) else None)
  }

  function SourceRef(s: Setting, o: Observation, sequence: nat): Ref {
    Ref(s.digest(ObservationDoc(o, sequence)), HookSanitized, s.meta.session, HookObservation(sequence))
  }

  function MakeEvent(s: Setting, id: Id, o: Observation, sequence: nat, provenance: Option<Ref>): AgentEvent {
    AgentEvent(id, s.meta.session, s.meta.producerRef, provenance, sequence, o.observedAt, o.event, RecordedOperation(o),
               Some(SourceRef(s, o, sequence)))
  }

  lemma NewEventSound(s: Setting, d: Disk, id: Id, o: Observation, sequence: nat, provenance: Option<Ref>)
    requires id.EventId? && sequence <= d.sequence && d.external == Some(o.externalHash) && s.meta.validatedProfile
    requires Stored(s, d, ObservationDoc(o, sequence)) && ProvenanceClean(s, d, provenance, id, [SourceRef(s, o, sequence)])
    ensures EventSound(s, d.(events := d.events[id := MakeEvent(s, id, o, sequence, provenance)]), id)
  {
  }

  function MakeCheckpoint(s: Setting, id: Id, found: Found, sequence: nat, manifest: Ref, capture: Ref, provenance: Option<Ref>): Checkpoint {
    Checkpoint(id, s.meta.session, s.meta.producerRef, provenance, sequence, found.gitBase, manifest.hash, manifest,
      seq(|found.files|, i requires 0 <= i < |found.files| => CapturedFrom(s, found.files[i], capture)))
  }

  ghost predicate FilesStored(s: Setting, d: Disk, files: seq<FoundFile>) {
    forall k :: 0 <= k < |files| && files[k].bytes.Some? ==> Stored(s, d, FileDoc(files[k].bytes.value))
  }

  /** The canonical manifest of a found repository is stored, as an artifact and as a blob, and `manifest` names it. */
  ghost predicate ManifestStored(s: Setting, d: Disk, found: Found, manifest: Ref) {
    && CanonicalText(found.gitBase, FoundEntries(s.digest, found.files)).Ok?
    && var m := ManifestDoc(CanonicalText(found.gitBase, FoundEntries(s.digest, found.files)).value);
    && manifest.hash == s.digest(m) && Stored(s, d, m) && s.digest(m) in d.manifests && d.manifests[s.digest(m)] == m
    && manifest.session == s.meta.session
  }

  lemma NewCheckpointSound(s: Setting, d: Disk, id: Id, found: Found, sequence: nat, manifest: Ref, capture: Ref, provenance: Option<Ref>)
    requires id.CheckpointId? && id !in d.checkpoints && sequence <= d.sequence && Verified(s, d, capture)
    requires FilesStored(s, d, found.files) && ManifestStored(s, d, found, manifest)
    requires ProvenanceClean(s, d, provenance, id, [manifest])
    ensures var c := MakeCheckpoint(s, id, found, sequence, manifest, capture, provenance);
      CheckpointSound(s, d.(checkpoints := d.checkpoints[id := c]), id) &&
      FoundManifestHash(s.digest, found) == Some(c.manifestHash)
  {
    hide CanonicalText;
    var c := MakeCheckpoint(s, id, found, sequence, manifest, capture, provenance);
    assert EntriesOf(c.paths) == FoundEntries(s.digest, found.files);
    ProvenanceStays(s, d, d.(checkpoints := d.checkpoints[id := c]), provenance, id, [manifest]);
  }

  lemma EventKept(s: Setting, a: Disk, b: Disk, id: Id, o: Observation)
    requires Grows(a, b) && id in a.events && EventSound(s, a, id) && ObservationOf(a, a.events[id]) == Some(o)
    requires Stored(s, a, EventDoc(a.events[id]))
    ensures id in b.events && b.events[id] == a.events[id] && EventSound(s, b, id) && ObservationOf(b, b.events[id]) == Some(o)
    ensures Stored(s, b, EventDoc(b.events[id]))
  {
    EventStays(s, a, b, id);
  }

  lemma FilesStay(s: Setting, a: Disk, b: Disk, files: seq<FoundFile>)
    requires Grows(a, b) && FilesStored(s, a, files)
    ensures FilesStored(s, b, files)
  {
  }

  lemma VerifiedStays(s: Setting, a: Disk, b: Disk, r: Ref)
    requires Grows(a, b) && Verified(s, a, r)
    ensures Verified(s, b, r)
  {
  }

  lemma ManifestStays(s: Setting, a: Disk, b: Disk, found: Found, manifest: Ref)
    requires Grows(a, b) && ManifestStored(s, a, found, manifest)
    ensures ManifestStored(s, b, found, manifest)
  {
    hide CanonicalText;
  }

  lemma SoundEvent(s: Setting, d: Disk, captures: map<string, Found>, id: Id)
    requires Sound(s, d, captures) && id in d.events
    ensures EventSound(s, d, id)
  {
  }

  lemma SoundCheckpoint(s: Setting, d: Disk, captures: map<string, Found>, id: Id)
    requires Sound(s, d, captures) && id in d.checkpoints
    ensures CheckpointSound(s, d, id) && d.checkpoints[id].id == id
  {
  }

  /** The loaded marker is this session's, for this result. */
  predicate MarkerFits(s: Setting, m: Pending, o: Observation, op: string) {
    && m.command == s.meta.verifier && m.externalHash == o.externalHash && m.session == s.meta.session
    && m.toolUseId == op && m.specHash == s.meta.specHash
  }

  /** The checkpoint the marker names is there and is the one it was written for. */
  predicate CheckpointFits(s: Setting, d: Disk, m: Pending) {
    && m.checkpointId in d.checkpoints
    && var c := d.checkpoints[m.checkpointId];
    c.session == s.meta.session && c.manifestHash == m.testedHash && s.digest(CheckpointDoc(c)) == m.checkpointRef.hash
  }

  /** What a pending marker gives the handler that loads it. */
  lemma SoundPending(s: Setting, d: Disk, captures: map<string, Found>, op: string)
    requires Sound(s, d, captures) && op in d.pending
    ensures PendingSound(s, d, captures, op)
    ensures var p := d.pending[op];
      && Verified(s, d, p.preEventRef) && Verified(s, d, p.checkpointRef) && Verified(s, d, s.meta.configRef)
      && p.checkpointId in d.checkpoints && op in captures && d.checkpoints[p.checkpointId].session == s.meta.session
      && FoundManifestHash(s.digest, captures[op]) == Some(d.checkpoints[p.checkpointId].manifestHash)
  {
    hide FoundManifestHash;
  }

  /** `persist_anomaly` writes nothing that any record depends on. */
  lemma AnomalyAdded(s: Setting, a: Disk, captures: map<string, Found>, n: nat)
    requires Sound(s, a, captures)
    ensures Sound(s, a.(anomalies := n), captures) && Grows(a, a.(anomalies := n))
  {
    hide EventSound, CheckpointSound, PendingSound, ReceiptSound;
    SoundStays(s, a, a.(anomalies := n), captures, captures);
  }

  function MakePending(s: Setting, o: Observation, e: AgentEvent, c: Checkpoint, op: string): Pending {
    Pending(c.id, RecordRef(s, Checkpoints, c.id, CheckpointDoc(c)), s.meta.verifier, o.externalHash, e.id,
            RecordRef(s, Events, e.id, EventDoc(e)), e.sequence, s.meta.session, o.observedAt, c.manifestHash, op, s.meta.specHash)
  }

  /** A marker already there names a checkpoint written before, so the new marker's bytes differ from it. */
  lemma PendingDiffers(s: Setting, before: Disk, d: Disk, captures: map<string, Found>, op: string, p: Pending)
    requires Sound(s, before, captures) && op in before.pending && d.pending == before.pending
    requires p.checkpointId !in before.checkpoints
    ensures d.pending[op] != p
  {
    assert PendingSound(s, before, captures, op);
  }

  lemma NewPendingSound(s: Setting, d: Disk, captures: map<string, Found>, o: Observation, eventId: Id, checkpointId: Id, op: string, found: Found)
    requires eventId in d.events && EventSound(s, d, eventId) && Stored(s, d, EventDoc(d.events[eventId]))
    requires ObservationOf(d, d.events[eventId]) == Some(o) && o.commandClass == ExactVerifier && o.event == PreToolUse
    requires RecordedOperation(o).Some? && RecordedOperation(o).value.occurrence == op
    requires checkpointId in d.checkpoints && CheckpointSound(s, d, checkpointId) && Stored(s, d, CheckpointDoc(d.checkpoints[checkpointId]))
    requires FoundManifestHash(s.digest, found) == Some(d.checkpoints[checkpointId].manifestHash)
    requires d.events[eventId].sequence < d.checkpoints[checkpointId].sequence
    ensures var p := MakePending(s, o, d.events[eventId], d.checkpoints[checkpointId], op);
      PendingSound(s, d.(pending := d.pending[op := p]), captures[op := found], op)
  {
    hide FoundManifestHash, CanonicalText, ProvenanceClean;
  }

  function MakeReceipt(s: Setting, op: string, operation: Operation, p: Pending, e: AgentEvent, ref: Ref,
    trusted: (bool, int), sequence: nat, provenance: Option<Ref>): Receipt
  {
    Receipt(ReceiptId(op), s.meta.session, s.meta.producerRef, provenance, s.meta.specHash, Some(s.meta.configRef),
            p.checkpointId, p.testedHash, s.meta.verifier, trusted.0, [ref], trusted.1, [ref], p.startedAt, [p.preEventRef],
            e.timestamp, [ref], Some(sequence), Some(operation))
  }

  /** With its event and its checkpoint stored, the marker of a pre hook is sound, and no marker already there equals it. */
  lemma PendingReady(s: Setting, before: Disk, d: Disk, captures: map<string, Found>, o: Observation, eventId: Id, checkpointId: Id, op: string,
    found: Found)
    requires Sound(s, before, captures) && Sound(s, d, captures) && Grows(before, d) && d.pending == before.pending
    requires eventId in before.events && ObservationOf(before, before.events[eventId]) == Some(o) && Stored(s, before, EventDoc(before.events[eventId]))
    requires o.commandClass == ExactVerifier && o.event == PreToolUse
    requires RecordedOperation(o).Some? && RecordedOperation(o).value.occurrence == op
    requires checkpointId in d.checkpoints && checkpointId !in before.checkpoints && Stored(s, d, CheckpointDoc(d.checkpoints[checkpointId]))
    requires FoundManifestHash(s.digest, found) == Some(d.checkpoints[checkpointId].manifestHash)
    requires before.events[eventId].sequence < d.checkpoints[checkpointId].sequence
    ensures eventId in d.events
    ensures var p := MakePending(s, o, d.events[eventId], d.checkpoints[checkpointId], op);
      && p.preEventId == eventId && (op in d.pending ==> d.pending[op] != p)
      && PendingSound(s, d.(pending := d.pending[op := p]), captures[op := found], op)
  {
    hide Sound, ProvenanceClean, CheckpointSound, PendingSound, FoundManifestHash, EventSound, ObservationOf, Stored, Grows, RecordRef, RecordedOperation,
      CanonicalText;
    SoundEvent(s, before, captures, eventId);
    SoundCheckpoint(s, d, captures, checkpointId);
    EventKept(s, before, d, eventId, o);
    NewPendingSound(s, d, captures, o, eventId, checkpointId, op, found);
    SoundEventId(s, d, captures, eventId);
    var p := MakePending(s, o, d.events[eventId], d.checkpoints[checkpointId], op);
    if op in d.pending { PendingDiffers(s, before, d, captures, op, p); }
  }

  lemma SoundEventId(s: Setting, d: Disk, captures: map<string, Found>, id: Id)
    requires Sound(s, d, captures) && id in d.events
    ensures d.events[id].id == id
  {
  }

  lemma NewReceiptSound(s: Setting, d: Disk, captures: map<string, Found>, op: string, operation: Operation, id: Id, o: Observation,
    sequence: nat, provenance: Option<Ref>)
    requires Sound(s, d, captures) && op in d.pending && id in d.events && Stored(s, d, EventDoc(d.events[id]))
    requires ObservationOf(d, d.events[id]) == Some(o) && o.commandClass == ExactVerifier && IsResultEvent(o.event)
    requires RecordedOperation(o) == Some(operation) && operation.occurrence == op && TrustedResult(o).Some?
    requires d.events[id].sequence < sequence <= d.sequence && ReceiptId(op) !in d.receipts
    requires d.pending[op].checkpointId in d.checkpoints ==> d.checkpoints[d.pending[op].checkpointId].sequence < sequence
    requires ProvenanceClean(s, d, provenance, ReceiptId(op),
               [d.pending[op].preEventRef, d.pending[op].checkpointRef, RecordRef(s, Events, id, EventDoc(d.events[id])), s.meta.configRef])
    ensures var ref := RecordRef(s, Events, id, EventDoc(d.events[id]));
      var r := MakeReceipt(s, op, operation, d.pending[op], d.events[id], ref, TrustedResult(o).value, sequence, provenance);
      ReceiptSound(s, d.(receipts := d.receipts[ReceiptId(op) := r]), ReceiptId(op))
  {
    hide Sound, FoundManifestHash, CanonicalText, ProvenanceClean, Sanitize;
    var ref := RecordRef(s, Events, id, EventDoc(d.events[id]));
    var r := MakeReceipt(s, op, operation, d.pending[op], d.events[id], ref, TrustedResult(o).value, sequence, provenance);
    var b := d.(receipts := d.receipts[ReceiptId(op) := r]);
    SoundEvent(s, d, captures, id);
    SoundPending(s, d, captures, op);
    ProvenanceStays(s, d, b, provenance, ReceiptId(op),
      [d.pending[op].preEventRef, d.pending[op].checkpointRef, ref, s.meta.configRef]);
    assert Reports(s, b, r, id, op);
  }

  /** What a receipt of `op` is derived from: its pre-event, its checkpoint, its result event and the verifier. */
  function ReceiptInputs(s: Setting, d: Disk, op: string, id: Id): seq<Ref>
    requires op in d.pending && id in d.events
  {
    [d.pending[op].preEventRef, d.pending[op].checkpointRef, RecordRef(s, Events, id, EventDoc(d.events[id])), s.meta.configRef]
  }

  /** A receipt may be written once its provenance is stored and its sequence number reserved. */
  lemma ReceiptWritable(s: Setting, d1: Disk, d2: Disk, d: Disk, captures: map<string, Found>, operation: Operation, id: Id,
    o: Observation, provenance: Option<Ref>)
    requires var op := operation.occurrence;
      && Sound(s, d1, captures) && Sound(s, d, captures) && Grows(d1, d2) && Grows(d2, d)
      && d2 == d1.(blobs := d2.blobs, provenance := d2.provenance) && d == d2.(sequence := d2.sequence + 1)
      && op in d1.pending && id in d1.events && Stored(s, d1, EventDoc(d1.events[id]))
      && ObservationOf(d1, d1.events[id]) == Some(o) && o.commandClass == ExactVerifier && IsResultEvent(o.event)
      && d1.events[id].sequence == d1.sequence && ReceiptId(op) !in d1.receipts
      && RecordedOperation(o) == Some(operation) && TrustedResult(o).Some?
      && ProvenanceClean(s, d2, provenance, ReceiptId(op), ReceiptInputs(s, d2, op, id))
    ensures var op := operation.occurrence;
      var ref := RecordRef(s, Events, id, EventDoc(d.events[id]));
      var r := MakeReceipt(s, op, operation, d.pending[op], d.events[id], ref, TrustedResult(o).value, d.sequence, provenance);
      var b := d.(receipts := d.receipts[ReceiptId(op) := r]);
      Sound(s, b, captures) && Grows(d, b)
  {
    hide Sound, ProvenanceClean, ReceiptSound, TrustedResult, RecordedOperation, RecordRef, MakeReceipt, Stored, ObservationOf, Grows;
    GrowsTransitive(d1, d2, d);
    EventStill(s, d1, d, id, o);
    var op := operation.occurrence;
    var ref := RecordRef(s, Events, id, EventDoc(d.events[id]));
    var r := MakeReceipt(s, op, operation, d.pending[op], d.events[id], ref, TrustedResult(o).value, d.sequence, provenance);
    ProvenanceStays(s, d2, d, provenance, ReceiptId(op), ReceiptInputs(s, d2, op, id));
    CheckpointEarlierIf(s, d1, captures, op);
    NewReceiptSound(s, d, captures, op, operation, id, o, d.sequence, provenance);
    ReceiptAdded(s, d, captures, ReceiptId(op), r);
  }

  lemma EventStill(s: Setting, a: Disk, b: Disk, id: Id, o: Observation)
    requires Grows(a, b) && id in a.events && ObservationOf(a, a.events[id]) == Some(o) && Stored(s, a, EventDoc(a.events[id]))
    ensures id in b.events && b.events[id] == a.events[id]
    ensures ObservationOf(b, b.events[id]) == Some(o) && Stored(s, b, EventDoc(b.events[id]))
  {
  }

  lemma CitesOwn(inputs: seq<Ref>)
    ensures forall i :: 0 <= i < |inputs| ==> Cites(inputs, inputs[i])
  {
  }

  lemma CheckpointEarlierIf(s: Setting, d: Disk, captures: map<string, Found>, op: string)
    requires Sound(s, d, captures) && op in d.pending
    ensures d.pending[op].checkpointId in d.checkpoints ==> d.checkpoints[d.pending[op].checkpointId].sequence <= d.sequence
  {
    if d.pending[op].checkpointId in d.checkpoints { assert CheckpointSound(s, d, d.pending[op].checkpointId); }
  }
}
