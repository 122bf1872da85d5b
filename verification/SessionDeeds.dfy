/** What one hook does to its session, write by write, and what each write leaves behind when one of them is refused. */
module SessionDeeds {
  import opened Ordering
  import opened CanonicalManifest
  import opened ForensicsRecords
  import opened SessionInvariant
  import opened SessionWrites

  /** Why a deed was broken off: the handler declined to go on, or a write-once file already held other bytes. */
  datatype Reason = Declined | Refused(offered: Content, held: Content)

  /** A stretch of a hook's work: done, or broken off with whatever it had written by then. */
  datatype Deed<+T> = Did(disk: Disk, uuid: nat, value: T) | Undone(disk: Disk, uuid: nat, reason: Reason) {
    predicate IsFailure() { Undone? }

    function PropagateFailure<U>(): Deed<U>
      requires Undone?
    {
      Undone(disk, uuid, reason)
    }

    function Extract(): Deed<T>
      requires Did?
    {
      this
    }

    predicate WasRefused() { Undone? && reason.Refused? }

    /** The refused content was the copy of a record whose file is already there. */
    predicate WasTorn() { WasRefused() && IsRecord(reason.offered) }
  }

  predicate IsRecord(c: Content) { c.EventDoc? || c.CheckpointDoc? || c.ReceiptDoc? }

  // ---- The writes, one by one ----

  /** `ref_for_bytes`. */
  function BlobDeed(s: Setting, d: Disk, u: nat, c: Content, source: Source, locator: Locator): Deed<Ref> {
    if Conflicts(d.blobs, s.digest(c), c) then Undone(d, u, Refused(c, d.blobs[s.digest(c)]))
    else Did(d.(blobs := d.blobs[s.digest(c) := c]), u, Ref(s.digest(c), source, s.meta.session, locator))
  }

  /** `persist_provenance`, under a fresh identity. */
  function ProvenanceDeed(s: Setting, d: Disk, u: nat, output: Id, inputs: seq<Ref>): Deed<Ref> {
    var p := Provenance(ProvenanceId(u), s.meta.producerRef, output, inputs, Some(s.meta.configRef));
    BlobDeed(s, d.(provenance := d.provenance[ProvenanceId(u) := p]), u + 1, ProvenanceDoc(p), RecordSource, RecordAt(ProvenanceRecords, ProvenanceId(u)))
  }

  /** `persist_record` of an event, a checkpoint, a receipt: the record file first, then its blob. */
  function EventFileDeed(s: Setting, d: Disk, u: nat, e: AgentEvent): Deed<Ref> {
    BlobDeed(s, d.(events := d.events[e.id := e]), u, EventDoc(e), RecordSource, RecordAt(Events, e.id))
  }

  function CheckpointFileDeed(s: Setting, d: Disk, u: nat, c: Checkpoint): Deed<Ref> {
    BlobDeed(s, d.(checkpoints := d.checkpoints[c.id := c]), u, CheckpointDoc(c), RecordSource, RecordAt(Checkpoints, c.id))
  }

  function ReceiptFileDeed(s: Setting, d: Disk, u: nat, r: Receipt): Deed<Ref> {
    BlobDeed(s, d.(receipts := d.receipts[r.id := r]), u, ReceiptDoc(r), RecordSource, RecordAt(Receipts, r.id))
  }

  /** `_event_from_observation`: reserve, store the observation and its provenance, write the event record. */
  function EventDeed(s: Setting, d: Disk, u: nat, o: Observation): (x: Deed<Id>)
    ensures x.Did? ==> x.value in x.disk.events
  {
    var n := d.sequence + 1;
    var source :- BlobDeed(s, d.(sequence := n), u, ObservationDoc(o, n), HookSanitized, HookObservation(n));
    var id := EventId(source.uuid);
    var proof :- ProvenanceDeed(s, source.disk, source.uuid + 1, id, [source.value]);
    var stored :- EventFileDeed(s, proof.disk, proof.uuid, MakeEvent(s, id, o, n, Some(proof.value)));
    Did(stored.disk, stored.uuid, id)
  }

  /** The content half of the capture loop: every present file's bytes become a blob. */
  function FilesDeed(s: Setting, d: Disk, u: nat, files: seq<FoundFile>): Deed<seq<Ref>>
    decreases |files|
  {
    if |files| == 0 then Did(d, u, [])
    else
      var most :- FilesDeed(s, d, u, files[..|files| - 1]);
      var f := files[|files| - 1];
      if f.bytes.None? then Did(most.disk, most.uuid, most.value)
      else
        var r :- BlobDeed(s, most.disk, most.uuid, FileDoc(f.bytes.value), CapturedFileSource, FileAt(f.path));
        Did(r.disk, r.uuid, most.value + [r.value])
  }

  /** `persist_manifest`: the manifest artifact, then its blob. */
  function ManifestDeed(s: Setting, d: Disk, u: nat, m: Content): Deed<Ref> {
    if Conflicts(d.manifests, s.digest(m), m) then Undone(d, u, Refused(m, d.manifests[s.digest(m)]))
    else BlobDeed(s, d.(manifests := d.manifests[s.digest(m) := m]), u, m, ManifestSource, ManifestAt(s.digest(m)))
  }

  /** What a capture has stored: the manifest, the capture observation, and every reference the checkpoint derives from. */
  datatype Capture = Capture(manifest: Ref, observed: Ref, inputs: seq<Ref>)

  /** The first half of a capture: store the file bytes, the canonical manifest and the capture observation. */
  function CaptureDeed(s: Setting, d: Disk, u: nat, found: Found, op: string): Deed<Capture> {
    var contents :- FilesDeed(s, d, u, found.files);
    match CanonicalText(found.gitBase, FoundEntries(s.digest, found.files))
    case Err(_) => Undone(contents.disk, contents.uuid, Declined)
    case Ok(text) =>
      var m :- ManifestDeed(s, contents.disk, contents.uuid, ManifestDoc(text));
      var c :- BlobDeed(s, m.disk, m.uuid, CaptureDoc(found.gitBase, m.value.hash, |found.files|), CaptureSource, CaptureAt(op));
      Did(c.disk, c.uuid, Capture(m.value, c.value, [c.value, m.value] + contents.value))
  }

  /** `capture_workspace_checkpoint`, once the repository has been read: store what was found and its provenance, take a
      sequence number, write the checkpoint record. */
  function CheckpointDeed(s: Setting, d: Disk, u: nat, found: Found, op: string): (x: Deed<Id>)
    ensures x.Did? ==> x.value in x.disk.checkpoints
  {
    var kept :- CaptureDeed(s, d, u, found, op);
    var id := CheckpointId(kept.uuid);
    var proof :- ProvenanceDeed(s, kept.disk, kept.uuid + 1, id, kept.value.inputs);
    var n := proof.disk.sequence + 1;
    var c := MakeCheckpoint(s, id, found, n, kept.value.manifest, kept.value.observed, Some(proof.value));
    var stored :- CheckpointFileDeed(s, proof.disk.(sequence := n), proof.uuid, c);
    Did(stored.disk, stored.uuid, id)
  }

  /** `_persist_verifier_pre_state`: a checkpoint, then the pending marker, which is written once per operation. */
  function PreDeed(s: Setting, d: Disk, u: nat, o: Observation, id: Id, found: Option<Found>): Deed<Id>
    requires id in d.events
  {
    if RecordedOperation(o).None? || o.cwdScope != "." || found.None? then Undone(d, u, Declined)
    else
      var op := RecordedOperation(o).value.occurrence;
      var c :- CheckpointDeed(s, d, u, found.value, op);
      var p := MakePending(s, o, d.events[id], c.disk.checkpoints[c.value], op);
      if Conflicts(c.disk.pending, op, p) then Undone(c.disk, c.uuid, Declined)
      else Did(c.disk.(pending := c.disk.pending[op := p]), c.uuid, id)
  }

  /** The marker of the operation and the checkpoint it names fit this session and this result. */
  predicate Fits(s: Setting, d: Disk, o: Observation, op: string) {
    op in d.pending && MarkerFits(s, d.pending[op], o, op) && CheckpointFits(s, d, d.pending[op])
  }

  /** The writing half of `_persist_verifier_result`: provenance, a sequence number, the receipt record. */
  function ReceiptDeed(s: Setting, d: Disk, u: nat, o: Observation, id: Id, operation: Operation, trusted: (bool, int)): Deed<Id>
    requires id in d.events && operation.occurrence in d.pending
  {
    var op := operation.occurrence;
    var proof :- ProvenanceDeed(s, d, u, ReceiptId(op), ReceiptInputs(s, d, op, id));
    var n := proof.disk.sequence + 1;
    var ref := RecordRef(s, Events, id, EventDoc(d.events[id]));
    var r := MakeReceipt(s, op, operation, d.pending[op], d.events[id], ref, trusted, n, Some(proof.value));
    var stored :- ReceiptFileDeed(s, proof.disk.(sequence := n), proof.uuid, r);
    Did(stored.disk, stored.uuid, id)
  }

  /** `_persist_verifier_result`: the receipt of a correlated, receipt-eligible result, written once per operation. */
  function ResultDeed(s: Setting, d: Disk, u: nat, o: Observation, id: Id): Deed<Id>
    requires id in d.events
  {
    var operation, trusted := RecordedOperation(o), TrustedResult(o);
    if operation.None? || o.cwdScope != "." || trusted.None? || !Fits(s, d, o, operation.value.occurrence)
    then Undone(d, u, Declined)
    else if ReceiptId(operation.value.occurrence) in d.receipts then Did(d, u, id)
    else ReceiptDeed(s, d, u, o, id, operation.value, trusted.value)
  }

  /** What follows the event: the pre-state, the receipt, or nothing more. */
  function BranchDeed(s: Setting, d: Disk, u: nat, i: HookInput, o: Observation, id: Id): Deed<Id>
    requires i.Hook? && id in d.events
  {
    var exact := IsExactVerifier(i.payload, s.meta.verifier);
    if exact && o.event == PreToolUse then PreDeed(s, d, u, o, id, i.found)
    else if exact && IsResultEvent(o.event) && TrustedResult(o).Some? then ResultDeed(s, d, u, o, id)
    else Did(d, u, id)
  }

  /** The part of `handle_claude_hook` inside its `try`; undone stands for any of the exceptions it catches. */
  function HookDeed(s: Setting, hashText: string -> Hash, d: Disk, u: nat, i: HookInput): Deed<Id> {
    if !Observable(s, hashText, d, i) then Undone(d, u, Declined)
    else
      var o := Sanitize(i.payload, s.meta.verifier, hashText).value;
      var e :- EventDeed(s, d.(external := Some(o.externalHash)), u, o);
      BranchDeed(s, e.disk, e.uuid, i, o, e.value)
  }

  // ---- What holds before and after every deed ----

  /** The session invariant, and fresh identities still to be drawn. */
  ghost predicate Standing(s: Setting, d: Disk, u: nat, captures: map<string, Found>) {
    && Sound(s, d, captures) && captures.Keys == d.pending.Keys
    && (forall n: nat :: u <= n ==> EventId(n) !in d.events && CheckpointId(n) !in d.checkpoints && ProvenanceId(n) !in d.provenance)
  }

  /** Two different contents with one digest. */
  predicate Clash(s: Setting, a: Content, b: Content) { a != b && s.digest(a) == s.digest(b) }

  /** The write-once file of the offered content holds a different one with the same digest. */
  predicate Met(s: Setting, d: Disk, offered: Content, held: Content) {
    && Clash(s, offered, held)
    && (Stored(s, d, held) || (!IsRecord(offered) && s.digest(held) in d.manifests && d.manifests[s.digest(held)] == held))
  }

  /** Done or not, a deed that began at `d` loses nothing and keeps the invariant; refused, it names both contents. */
  ghost predicate Kept<T>(s: Setting, d: Disk, captures: map<string, Found>, x: Deed<T>) {
    && Standing(s, x.disk, x.uuid, captures) && Grows(d, x.disk)
    && (x.WasRefused() ==> Met(s, x.disk, x.reason.offered, x.reason.held))
  }

  lemma KeptSince<T>(s: Setting, a: Disk, b: Disk, captures: map<string, Found>, x: Deed<T>)
    requires Grows(a, b) && Kept(s, b, captures, x)
    ensures Kept(s, a, captures, x)
  {
    hide Standing, Met, Grows;
    GrowsTransitive(a, b, x.disk);
  }

  lemma BlobDeedKeeps(s: Setting, d: Disk, u: nat, captures: map<string, Found>, c: Content, source: Source, locator: Locator)
    requires Standing(s, d, u, captures)
    ensures var x := BlobDeed(s, d, u, c, source, locator);
      && Kept(s, d, captures, x) && x.disk == d.(blobs := x.disk.blobs) && x.uuid == u && s.digest(c) in x.disk.blobs
      && (if x.Did? then Stored(s, x.disk, c) && x.value == Ref(s.digest(c), source, s.meta.session, locator)
          else x.WasRefused() && x.reason.offered == c && Stored(s, x.disk, x.reason.held) && x.disk == d)
  {
    hide EventSound, CheckpointSound, PendingSound, ReceiptSound;
    if !Conflicts(d.blobs, s.digest(c), c) { BlobAdded(s, d, captures, c); }
  }

  /** `proof` is clean provenance of `output` for whatever part of `inputs` is asked for. */
  ghost predicate Proves(s: Setting, d: Disk, proof: Ref, output: Id, inputs: seq<Ref>) {
    forall required :: (forall i :: 0 <= i < |required| ==> Cites(inputs, required[i])) ==> ProvenanceClean(s, d, Some(proof), output, required)
  }

  /** The next sequence number may be taken at any point. */
  lemma NumberedStands(s: Setting, d: Disk, u: nat, captures: map<string, Found>)
    requires Standing(s, d, u, captures)
    ensures var b := d.(sequence := d.sequence + 1); Standing(s, b, u, captures) && Grows(d, b)
  {
    hide Sound;
    SequenceAdvanced(s, d, captures, d.sequence + 1);
  }

  /** Skipping an identity does no harm. */
  lemma LaterStands(s: Setting, d: Disk, u: nat, v: nat, captures: map<string, Found>)
    requires Standing(s, d, u, captures) && u <= v
    ensures Standing(s, d, v, captures) && EventId(u) !in d.events && CheckpointId(u) !in d.checkpoints
  {
    hide Sound;
  }

  lemma ProvenanceDeedKeeps(s: Setting, d: Disk, u: nat, captures: map<string, Found>, output: Id, inputs: seq<Ref>)
    requires Standing(s, d, u, captures)
    ensures var x := ProvenanceDeed(s, d, u, output, inputs);
      && Kept(s, d, captures, x) && x.disk == d.(blobs := x.disk.blobs, provenance := x.disk.provenance) && x.uuid == u + 1
      && (x.Undone? ==> x.WasRefused() && x.reason.offered.ProvenanceDoc?)
      && (x.Did? && (forall i :: 0 <= i < |inputs| ==> Verified(s, d, inputs[i])) ==> Proves(s, x.disk, x.value, output, inputs))
  {
    hide Sound, Met, EventSound, CheckpointSound, PendingSound, ReceiptSound;
    var p := Provenance(ProvenanceId(u), s.meta.producerRef, output, inputs, Some(s.meta.configRef));
    var filed := d.(provenance := d.provenance[ProvenanceId(u) := p]);
    ProvenanceAdded(s, d, captures, ProvenanceId(u), p);
    BlobDeedKeeps(s, filed, u + 1, captures, ProvenanceDoc(p), RecordSource, RecordAt(ProvenanceRecords, ProvenanceId(u)));
    KeptSince(s, d, filed, captures, ProvenanceDeed(s, d, u, output, inputs));
  }

  // ---- Torn records ----

  /** The digest of every record's own document names a blob, though not always that document. */
  ghost predicate Addressed(s: Setting, d: Disk) {
    && (forall id :: id in d.events ==> s.digest(EventDoc(d.events[id])) in d.blobs)
    && (forall id :: id in d.checkpoints ==> s.digest(CheckpointDoc(d.checkpoints[id])) in d.blobs)
    && (forall id :: id in d.receipts ==> s.digest(ReceiptDoc(d.receipts[id])) in d.blobs)
  }

  /** No record file is torn: every one has its own blob. */
  ghost predicate RecordsIntact(s: Setting, d: Disk) {
    && (forall id :: id in d.events ==> Stored(s, d, EventDoc(d.events[id])))
    && (forall id :: id in d.checkpoints ==> Stored(s, d, CheckpointDoc(d.checkpoints[id])))
    && (forall id :: id in d.receipts ==> Stored(s, d, ReceiptDoc(d.receipts[id])))
  }

  /** Going from `a` to `b` leaves the records intact unless it tore one. */
  ghost predicate Tracks(s: Setting, a: Disk, b: Disk, torn: bool) {
    Addressed(s, a) ==> Addressed(s, b) && (RecordsIntact(s, b) <==> RecordsIntact(s, a) && !torn)
  }

  lemma TracksTransitive(s: Setting, a: Disk, b: Disk, c: Disk, torn: bool)
    requires Tracks(s, a, b, false) && Tracks(s, b, c, torn)
    ensures Tracks(s, a, c, torn)
  {
    hide Addressed, RecordsIntact;
  }

  lemma SameRecordsTrack(s: Setting, a: Disk, b: Disk)
    requires Grows(a, b) && b.events == a.events && b.checkpoints == a.checkpoints && b.receipts == a.receipts
    ensures Tracks(s, a, b, false)
  {
  }

  lemma SameBytesStored(s: Setting, a: Disk, b: Disk, c: Content)
    requires Grows(a, b) && s.digest(c) in a.blobs
    ensures Stored(s, a, c) <==> Stored(s, b, c)
  {
  }

  lemma EventTracks(s: Setting, a: Disk, b: Disk, e: AgentEvent)
    requires Grows(a, b) && b.checkpoints == a.checkpoints && b.receipts == a.receipts
    requires e.id !in a.events && b.events == a.events[e.id := e] && s.digest(EventDoc(e)) in b.blobs
    ensures Tracks(s, a, b, !Stored(s, b, EventDoc(e)))
  {
    hide Stored;
    if Addressed(s, a) {
      assert e.id in b.events;
      forall id | id in a.events ensures Stored(s, a, EventDoc(a.events[id])) <==> Stored(s, b, EventDoc(a.events[id])) {
        SameBytesStored(s, a, b, EventDoc(a.events[id]));
      }
      forall id | id in a.checkpoints ensures Stored(s, a, CheckpointDoc(a.checkpoints[id])) <==> Stored(s, b, CheckpointDoc(a.checkpoints[id])) {
        SameBytesStored(s, a, b, CheckpointDoc(a.checkpoints[id]));
      }
      forall id | id in a.receipts ensures Stored(s, a, ReceiptDoc(a.receipts[id])) <==> Stored(s, b, ReceiptDoc(a.receipts[id])) {
        SameBytesStored(s, a, b, ReceiptDoc(a.receipts[id]));
      }
    }
  }

  lemma CheckpointTracks(s: Setting, a: Disk, b: Disk, c: Checkpoint)
    requires Grows(a, b) && b.events == a.events && b.receipts == a.receipts
    requires c.id !in a.checkpoints && b.checkpoints == a.checkpoints[c.id := c] && s.digest(CheckpointDoc(c)) in b.blobs
    ensures Tracks(s, a, b, !Stored(s, b, CheckpointDoc(c)))
  {
    hide Stored;
    if Addressed(s, a) {
      assert c.id in b.checkpoints;
      forall id | id in a.events ensures Stored(s, a, EventDoc(a.events[id])) <==> Stored(s, b, EventDoc(a.events[id])) {
        SameBytesStored(s, a, b, EventDoc(a.events[id]));
      }
      forall id | id in a.checkpoints ensures Stored(s, a, CheckpointDoc(a.checkpoints[id])) <==> Stored(s, b, CheckpointDoc(a.checkpoints[id])) {
        SameBytesStored(s, a, b, CheckpointDoc(a.checkpoints[id]));
      }
      forall id | id in a.receipts ensures Stored(s, a, ReceiptDoc(a.receipts[id])) <==> Stored(s, b, ReceiptDoc(a.receipts[id])) {
        SameBytesStored(s, a, b, ReceiptDoc(a.receipts[id]));
      }
    }
  }

  lemma ReceiptTracks(s: Setting, a: Disk, b: Disk, r: Receipt)
    requires Grows(a, b) && b.events == a.events && b.checkpoints == a.checkpoints
    requires r.id !in a.receipts && b.receipts == a.receipts[r.id := r] && s.digest(ReceiptDoc(r)) in b.blobs
    ensures Tracks(s, a, b, !Stored(s, b, ReceiptDoc(r)))
  {
    hide Stored;
    if Addressed(s, a) {
      assert r.id in b.receipts;
      forall id | id in a.events ensures Stored(s, a, EventDoc(a.events[id])) <==> Stored(s, b, EventDoc(a.events[id])) {
        SameBytesStored(s, a, b, EventDoc(a.events[id]));
      }
      forall id | id in a.checkpoints ensures Stored(s, a, CheckpointDoc(a.checkpoints[id])) <==> Stored(s, b, CheckpointDoc(a.checkpoints[id])) {
        SameBytesStored(s, a, b, CheckpointDoc(a.checkpoints[id]));
      }
      forall id | id in a.receipts ensures Stored(s, a, ReceiptDoc(a.receipts[id])) <==> Stored(s, b, ReceiptDoc(a.receipts[id])) {
        SameBytesStored(s, a, b, ReceiptDoc(a.receipts[id]));
      }
    }
  }

  // ---- The event ----

  /** `b` is `a` with the record and the blob of one new event of this observation. */
  ghost predicate EventPut(s: Setting, a: Disk, b: Disk, id: Id, o: Observation) {
    && id in b.events && id !in a.events && b.events == a.events[id := b.events[id]]
    && ObservationOf(b, b.events[id]) == Some(o) && Stored(s, b, EventDoc(b.events[id])) && b.events[id].sequence == b.sequence
  }

  predicate OnlyEvents(a: Disk, b: Disk) {
    && b.pending == a.pending && b.receipts == a.receipts && b.checkpoints == a.checkpoints
    && b.anomalies == a.anomalies && b.external == a.external
  }

  lemma EventFileKeeps(s: Setting, d: Disk, u: nat, captures: map<string, Found>, id: Id, o: Observation, n: nat, proof: Ref)
    requires Standing(s, d, u, captures) && id.EventId? && id.n < u && id !in d.events
    requires n == d.sequence && d.external == Some(o.externalHash) && s.meta.validatedProfile
    requires Stored(s, d, ObservationDoc(o, n)) && ProvenanceClean(s, d, Some(proof), id, [SourceRef(s, o, n)])
    ensures var x := EventFileDeed(s, d, u, MakeEvent(s, id, o, n, Some(proof)));
      && Kept(s, d, captures, x) && OnlyEvents(d, x.disk) && Tracks(s, d, x.disk, x.WasTorn())
      && (if x.Did? then EventPut(s, d, x.disk, id, o) else x.WasTorn())
  {
    hide Sound, Met, EventSound, ProvenanceClean, RecordedOperation, Tracks;
    var e := MakeEvent(s, id, o, n, Some(proof));
    var filed := d.(events := d.events[id := e]);
    NewEventSound(s, d, id, o, n, Some(proof));
    EventAdded(s, d, captures, id, e);
    BlobDeedKeeps(s, filed, u, captures, EventDoc(e), RecordSource, RecordAt(Events, id));
    var x := EventFileDeed(s, d, u, e);
    KeptSince(s, d, filed, captures, x);
    RefusedNotStored(s, x);
    EventTracks(s, d, x.disk, e);
  }

  /** A refused content is not the one that is stored. */
  lemma RefusedNotStored<T>(s: Setting, x: Deed<T>)
    requires x.WasRefused() ==> Met(s, x.disk, x.reason.offered, x.reason.held) && Stored(s, x.disk, x.reason.held)
    ensures x.WasRefused() ==> !Stored(s, x.disk, x.reason.offered)
  {
  }

  lemma EventDeedKeeps(s: Setting, d: Disk, u: nat, captures: map<string, Found>, o: Observation)
    requires Standing(s, d, u, captures) && d.external == Some(o.externalHash) && s.meta.validatedProfile
    ensures var x := EventDeed(s, d, u, o);
      && Kept(s, d, captures, x) && OnlyEvents(d, x.disk) && Tracks(s, d, x.disk, x.WasTorn())
      && (if x.Did? then EventPut(s, d, x.disk, x.value, o) else x.WasRefused())
  {
    hide Standing, Met, EventSound, ProvenanceClean, RecordedOperation, Tracks, Verified, MakeEvent, ProvenanceDeed, BlobDeed, EventFileDeed, Grows, Stored, Cites;
    var n := d.sequence + 1;
    var numbered := d.(sequence := n);
    NumberedStands(s, d, u, captures);
    var source := BlobDeed(s, numbered, u, ObservationDoc(o, n), HookSanitized, HookObservation(n));
    BlobDeedKeeps(s, numbered, u, captures, ObservationDoc(o, n), HookSanitized, HookObservation(n));
    KeptSince(s, d, numbered, captures, source);
    SameRecordsTrack(s, d, source.disk);
    if source.Did? {
      var id := EventId(source.uuid);
      ObservationVerified(s, source.disk, o, n);
      LaterStands(s, source.disk, source.uuid, source.uuid + 1, captures);
      ProvenanceDeedKeeps(s, source.disk, source.uuid + 1, captures, id, [source.value]);
      var proof := ProvenanceDeed(s, source.disk, source.uuid + 1, id, [source.value]);
      KeptSince(s, d, source.disk, captures, proof);
      SameRecordsTrack(s, d, proof.disk);
      if proof.Did? {
        CitesOwn([source.value]);
        StoredKept(s, source.disk, proof.disk, ObservationDoc(o, n));
        EventFileKeeps(s, proof.disk, proof.uuid, captures, id, o, n, proof.value);
        var stored := EventFileDeed(s, proof.disk, proof.uuid, MakeEvent(s, id, o, n, Some(proof.value)));
        KeptSince(s, d, proof.disk, captures, stored);
        TracksTransitive(s, d, proof.disk, stored.disk, stored.WasTorn());
      }
    }
  }

  lemma ObservationVerified(s: Setting, d: Disk, o: Observation, n: nat)
    requires Stored(s, d, ObservationDoc(o, n))
    ensures Verified(s, d, SourceRef(s, o, n))
  {
  }

  lemma StoredKept(s: Setting, a: Disk, b: Disk, c: Content)
    requires Grows(a, b) && Stored(s, a, c)
    ensures Stored(s, b, c)
  {
  }

  // ---- The checkpoint ----

  lemma FilesDeedKeeps(s: Setting, d: Disk, u: nat, captures: map<string, Found>, files: seq<FoundFile>)
    requires Standing(s, d, u, captures)
    ensures var x := FilesDeed(s, d, u, files);
      && Kept(s, d, captures, x) && x.disk == d.(blobs := x.disk.blobs) && x.uuid == u
      && (if x.Did? then FilesStored(s, x.disk, files) && AllVerified(s, x.disk, x.value)
          else x.WasRefused() && x.reason.offered.FileDoc?)
    decreases |files|
  {
    hide Standing, Met, Grows, Stored, BlobDeed, Verified;
    if |files| == 0 {
      SameGrows(d);
    } else {
      var before, f := files[..|files| - 1], files[|files| - 1];
      FilesDeedKeeps(s, d, u, captures, before);
      var most := FilesDeed(s, d, u, before);
      if most.Did? {
        if f.bytes.Some? {
          BlobDeedKeeps(s, most.disk, u, captures, FileDoc(f.bytes.value), CapturedFileSource, FileAt(f.path));
          var r := BlobDeed(s, most.disk, u, FileDoc(f.bytes.value), CapturedFileSource, FileAt(f.path));
          KeptSince(s, d, most.disk, captures, r);
          FilesStay(s, most.disk, r.disk, before);
          if r.Did? { OneMoreVerified(s, most.disk, r.disk, most.value, FileDoc(f.bytes.value), r.value); }
        }
        assert files == before + [f];
      }
    }
  }

  lemma SameGrows(d: Disk)
    ensures Grows(d, d)
  {
  }

  ghost predicate AllVerified(s: Setting, d: Disk, refs: seq<Ref>) { forall k :: 0 <= k < |refs| ==> Verified(s, d, refs[k]) }

  lemma AllVerifiedStays(s: Setting, a: Disk, b: Disk, refs: seq<Ref>)
    requires Grows(a, b) && AllVerified(s, a, refs)
    ensures AllVerified(s, b, refs)
  {
  }

  lemma OneMoreVerified(s: Setting, a: Disk, b: Disk, refs: seq<Ref>, c: Content, r: Ref)
    requires Grows(a, b) && AllVerified(s, a, refs) && Stored(s, b, c) && r.hash == s.digest(c) && r.session == s.meta.session
    ensures Verified(s, b, r) && AllVerified(s, b, refs + [r])
  {
  }

  lemma ManifestDeedKeeps(s: Setting, d: Disk, u: nat, captures: map<string, Found>, m: Content)
    requires Standing(s, d, u, captures) && !IsRecord(m)
    ensures var x := ManifestDeed(s, d, u, m);
      && Kept(s, d, captures, x) && x.disk == d.(blobs := x.disk.blobs, manifests := x.disk.manifests) && x.uuid == u
      && (if x.Did?
          then x.value == Ref(s.digest(m), ManifestSource, s.meta.session, ManifestAt(s.digest(m))) && Stored(s, x.disk, m) &&
               s.digest(m) in x.disk.manifests && x.disk.manifests[s.digest(m)] == m
          else x.WasRefused() && x.reason.offered == m)
  {
    hide EventSound, CheckpointSound, PendingSound, ReceiptSound;
    var h := s.digest(m);
    if !Conflicts(d.manifests, h, m) {
      ManifestAdded(s, d, captures, h, m);
      var filed := d.(manifests := d.manifests[h := m]);
      BlobDeedKeeps(s, filed, u, captures, m, ManifestSource, ManifestAt(h));
      KeptSince(s, d, filed, captures, ManifestDeed(s, d, u, m));
    } else {
      SameGrows(d);
    }
  }

  /** What a finished capture leaves. */
  ghost predicate Captured(s: Setting, d: Disk, found: Found, x: Capture) {
    && FilesStored(s, d, found.files) && ManifestStored(s, d, found, x.manifest) && Verified(s, d, x.observed)
    && |x.inputs| >= 2 && x.inputs[1] == x.manifest && AllVerified(s, d, x.inputs)
  }

  lemma CaptureDeedKeeps(s: Setting, d: Disk, u: nat, captures: map<string, Found>, found: Found, op: string)
    requires Standing(s, d, u, captures)
    ensures var x := CaptureDeed(s, d, u, found, op);
      && Kept(s, d, captures, x) && x.disk == d.(blobs := x.disk.blobs, manifests := x.disk.manifests) && x.uuid == u
      && (if x.Did? then Captured(s, x.disk, found, x.value)
          else if x.WasRefused() then !IsRecord(x.reason.offered)
          else FoundManifestHash(s.digest, found).None?)
  {
    hide Standing, Met, Grows, Stored, BlobDeed, ManifestDeed, FilesDeed, CanonicalText, FilesStored, AllVerified, Verified;
    FilesDeedKeeps(s, d, u, captures, found.files);
    var contents := FilesDeed(s, d, u, found.files);
    var text := CanonicalText(found.gitBase, FoundEntries(s.digest, found.files));
    if contents.Did? && text.Ok? {
      var doc := ManifestDoc(text.value);
      ManifestDeedKeeps(s, contents.disk, u, captures, doc);
      var m := ManifestDeed(s, contents.disk, u, doc);
      KeptSince(s, d, contents.disk, captures, m);
      if m.Did? {
        var observed := CaptureDoc(found.gitBase, m.value.hash, |found.files|);
        BlobDeedKeeps(s, m.disk, u, captures, observed, CaptureSource, CaptureAt(op));
        var c := BlobDeed(s, m.disk, u, observed, CaptureSource, CaptureAt(op));
        KeptSince(s, d, m.disk, captures, c);
        if c.Did? {
          CaptureComplete(s, contents.disk, m.disk, c.disk, found, contents.value, doc, m.value, observed, c.value);
        }
      }
    }
  }

  lemma CaptureComplete(s: Setting, d1: Disk, d2: Disk, d3: Disk, found: Found, contents: seq<Ref>, doc: Content, manifest: Ref, observed: Content, r: Ref)
    requires Grows(d1, d2) && Grows(d2, d3) && FilesStored(s, d1, found.files) && AllVerified(s, d1, contents)
    requires doc.ManifestDoc? && CanonicalText(found.gitBase, FoundEntries(s.digest, found.files)) == Ok(doc.text) && Stored(s, d2, doc)
    requires manifest.hash == s.digest(doc) && manifest.session == s.meta.session
    requires s.digest(doc) in d2.manifests && d2.manifests[s.digest(doc)] == doc
    requires Stored(s, d3, observed) && r.hash == s.digest(observed) && r.session == s.meta.session
    ensures Captured(s, d3, found, Capture(manifest, r, [r, manifest] + contents))
  {
    hide CanonicalText;
    GrowsTransitive(d1, d2, d3);
    FilesStay(s, d1, d3, found.files);
    AllVerifiedStays(s, d1, d3, contents);
  }

  /** `b` is `a` with the record and the blob of one new checkpoint of this repository. */
  ghost predicate CheckpointPut(s: Setting, a: Disk, b: Disk, id: Id, found: Found) {
    && id in b.checkpoints && id !in a.checkpoints && Stored(s, b, CheckpointDoc(b.checkpoints[id]))
    && FoundManifestHash(s.digest, found) == Some(b.checkpoints[id].manifestHash)
    && a.sequence < b.checkpoints[id].sequence <= b.sequence
  }

  predicate OnlyCheckpoints(a: Disk, b: Disk) {
    && b.pending == a.pending && b.receipts == a.receipts && b.events == a.events
    && b.anomalies == a.anomalies && b.external == a.external
  }

  lemma CapturedStays(s: Setting, a: Disk, b: Disk, found: Found, x: Capture)
    requires Grows(a, b) && Captured(s, a, found, x)
    ensures Captured(s, b, found, x)
  {
    hide Grows, ManifestStored, FilesStored, Verified, AllVerified;
    FilesStay(s, a, b, found.files);
    ManifestStays(s, a, b, found, x.manifest);
    VerifiedStays(s, a, b, x.observed);
    AllVerifiedStays(s, a, b, x.inputs);
  }

  lemma CheckpointFileKeeps(s: Setting, d: Disk, u: nat, captures: map<string, Found>, id: Id, found: Found, n: nat, kept: Capture, proof: Ref)
    requires Standing(s, d, u, captures) && id.CheckpointId? && id.n < u && id !in d.checkpoints && n == d.sequence
    requires Captured(s, d, found, kept) && ProvenanceClean(s, d, Some(proof), id, [kept.manifest])
    ensures var x := CheckpointFileDeed(s, d, u, MakeCheckpoint(s, id, found, n, kept.manifest, kept.observed, Some(proof)));
      && Kept(s, d, captures, x) && OnlyCheckpoints(d, x.disk) && Tracks(s, d, x.disk, x.WasTorn()) && x.disk.sequence == n
      && (if x.Did? then id in x.disk.checkpoints && Stored(s, x.disk, CheckpointDoc(x.disk.checkpoints[id])) &&
                         FoundManifestHash(s.digest, found) == Some(x.disk.checkpoints[id].manifestHash) && x.disk.checkpoints[id].sequence == n
          else x.WasTorn())
  {
    hide Sound, Met, CheckpointSound, ProvenanceClean, Tracks, FoundManifestHash, ManifestStored;
    var c := MakeCheckpoint(s, id, found, n, kept.manifest, kept.observed, Some(proof));
    var filed := d.(checkpoints := d.checkpoints[id := c]);
    NewCheckpointSound(s, d, id, found, n, kept.manifest, kept.observed, Some(proof));
    CheckpointAdded(s, d, captures, id, c);
    BlobDeedKeeps(s, filed, u, captures, CheckpointDoc(c), RecordSource, RecordAt(Checkpoints, id));
    var x := CheckpointFileDeed(s, d, u, c);
    KeptSince(s, d, filed, captures, x);
    RefusedNotStored(s, x);
    CheckpointTracks(s, d, x.disk, c);
  }

  lemma CheckpointDeedKeeps(s: Setting, d: Disk, u: nat, captures: map<string, Found>, found: Found, op: string)
    requires Standing(s, d, u, captures)
    ensures var x := CheckpointDeed(s, d, u, found, op);
      && Kept(s, d, captures, x) && OnlyCheckpoints(d, x.disk) && Tracks(s, d, x.disk, x.WasTorn())
      && (if x.Did? then CheckpointPut(s, d, x.disk, x.value, found)
          else x.WasRefused() || FoundManifestHash(s.digest, found).None?)
  {
    hide Standing, Met, Grows, Stored, Captured, ProvenanceDeed, CaptureDeed, CheckpointFileDeed, FoundManifestHash, MakeCheckpoint, Tracks, ProvenanceClean, Cites;
    CaptureDeedKeeps(s, d, u, captures, found, op);
    var kept := CaptureDeed(s, d, u, found, op);
    SameRecordsTrack(s, d, kept.disk);
    if kept.Did? {
      var id, inputs := CheckpointId(u), kept.value.inputs;
      LaterStands(s, kept.disk, u, u + 1, captures);
      ProvenanceDeedKeeps(s, kept.disk, u + 1, captures, id, inputs);
      var proof := ProvenanceDeed(s, kept.disk, u + 1, id, inputs);
      KeptSince(s, d, kept.disk, captures, proof);
      SameRecordsTrack(s, d, proof.disk);
      if proof.Did? {
        var n := proof.disk.sequence + 1;
        var numbered := proof.disk.(sequence := n);
        NumberedStands(s, proof.disk, proof.uuid, captures);
        GrowsTransitive(d, proof.disk, numbered);
        GrowsTransitive(kept.disk, proof.disk, numbered);
        CapturedStays(s, kept.disk, numbered, found, kept.value);
        CaptureProved(s, kept.disk, proof.disk, numbered, found, kept.value, proof.value, id);
        var c := MakeCheckpoint(s, id, found, n, kept.value.manifest, kept.value.observed, Some(proof.value));
        CheckpointFileKeeps(s, numbered, proof.uuid, captures, id, found, n, kept.value, proof.value);
        var stored := CheckpointFileDeed(s, numbered, proof.uuid, c);
        KeptSince(s, d, numbered, captures, stored);
        SameRecordsTrack(s, d, numbered);
        TracksTransitive(s, d, numbered, stored.disk, stored.WasTorn());
      }
    }
  }

  lemma CaptureProved(s: Setting, d1: Disk, d2: Disk, d3: Disk, found: Found, x: Capture, proof: Ref, id: Id)
    requires Captured(s, d1, found, x) && Grows(d2, d3)
    requires (forall i :: 0 <= i < |x.inputs| ==> Verified(s, d1, x.inputs[i])) ==> Proves(s, d2, proof, id, x.inputs)
    ensures ProvenanceClean(s, d3, Some(proof), id, [x.manifest])
  {
    hide Grows, ProvenanceClean, Verified, FilesStored, ManifestStored;
    assert Cites(x.inputs, [x.manifest][0]);
    ProvenanceStays(s, d2, d3, Some(proof), id, [x.manifest]);
  }

  // ---- The pending marker ----

  /** What the handler needs of its own event before the branch. */
  ghost predicate Ready(s: Setting, d: Disk, id: Id, o: Observation) {
    && id in d.events && ObservationOf(d, d.events[id]) == Some(o) && Stored(s, d, EventDoc(d.events[id])) && d.events[id].sequence == d.sequence
  }

  /** The captured states, with the one whose marker has just been written. */
  function WithCapture(captures: map<string, Found>, o: Observation, found: Option<Found>, done: bool): map<string, Found> {
    if done && RecordedOperation(o).Some? && found.Some? then captures[RecordedOperation(o).value.occurrence := found.value] else captures
  }

  lemma PreDeedKeeps(s: Setting, d: Disk, u: nat, captures: map<string, Found>, o: Observation, id: Id, found: Option<Found>)
    requires Standing(s, d, u, captures) && Ready(s, d, id, o) && o.commandClass == ExactVerifier && o.event == PreToolUse
    ensures var x := PreDeed(s, d, u, o, id, found);
      && Kept(s, d, WithCapture(captures, o, found, x.Did?), x) && MapGrows(captures, WithCapture(captures, o, found, x.Did?))
      && x.disk.receipts == d.receipts && x.disk.events == d.events && x.disk.anomalies == d.anomalies && x.disk.external == d.external
      && Tracks(s, d, x.disk, x.WasTorn())
      && (x.Did? ==> Correlates(d, o, false) && found.Some? && FoundManifestHash(s.digest, found.value).Some? &&
                     RecordedOperation(o).value.occurrence in x.disk.pending &&
                     x.disk.pending[RecordedOperation(o).value.occurrence].preEventId == id)
      && (x.Undone? && !x.WasRefused() ==> !Correlates(d, o, false) || found.None? || FoundManifestHash(s.digest, found.value).None?)
  {
    hide Sound, Met, MakePending, CheckpointDeed, RecordedOperation, FoundManifestHash, Tracks, Grows, Stored, ObservationOf, Captured, PendingSound;
    SameGrows(d);
    SameRecordsTrack(s, d, d);
    if RecordedOperation(o).Some? && o.cwdScope == "." && found.Some? {
      var op := RecordedOperation(o).value.occurrence;
      CheckpointDeedKeeps(s, d, u, captures, found.value, op);
      var c := CheckpointDeed(s, d, u, found.value, op);
      if c.Did? {
        var p := MakePending(s, o, d.events[id], c.disk.checkpoints[c.value], op);
        PendingReady(s, d, c.disk, captures, o, id, c.value, op, found.value);
        if op !in c.disk.pending {
          PendingAdded(s, c.disk, captures, op, p, found.value);
          var b := c.disk.(pending := c.disk.pending[op := p]);
          GrowsTransitive(d, c.disk, b);
          SameRecordsTrack(s, c.disk, b);
          TracksTransitive(s, d, c.disk, b, false);
        }
      }
    }
  }

  // ---- The receipt ----

  predicate OnlyReceipts(a: Disk, b: Disk) {
    && b.pending == a.pending && b.events == a.events && b.checkpoints == a.checkpoints
    && b.anomalies == a.anomalies && b.external == a.external
  }

  lemma ReceiptProved(s: Setting, d: Disk, u: nat, captures: map<string, Found>, op: string, id: Id)
    requires Standing(s, d, u, captures) && op in d.pending && id in d.events && Stored(s, d, EventDoc(d.events[id]))
    ensures var x := ProvenanceDeed(s, d, u, ReceiptId(op), ReceiptInputs(s, d, op, id));
      x.Did? ==> ProvenanceClean(s, x.disk, Some(x.value), ReceiptId(op), ReceiptInputs(s, d, op, id))
  {
    hide Sound, ProvenanceClean, PendingSound, FoundManifestHash, ProvenanceDeed;
    var inputs := ReceiptInputs(s, d, op, id);
    SoundPending(s, d, captures, op);
    CitesOwn(inputs);
    ProvenanceDeedKeeps(s, d, u, captures, ReceiptId(op), inputs);
  }

  lemma ReceiptDeedKeeps(s: Setting, d: Disk, u: nat, captures: map<string, Found>, o: Observation, id: Id)
    requires Standing(s, d, u, captures) && Ready(s, d, id, o) && o.commandClass == ExactVerifier && IsResultEvent(o.event)
    requires RecordedOperation(o).Some? && TrustedResult(o).Some? && RecordedOperation(o).value.occurrence in d.pending
    requires ReceiptId(RecordedOperation(o).value.occurrence) !in d.receipts
    ensures var x := ReceiptDeed(s, d, u, o, id, RecordedOperation(o).value, TrustedResult(o).value);
      && Kept(s, d, captures, x) && OnlyReceipts(d, x.disk) && Tracks(s, d, x.disk, x.WasTorn())
      && (if x.Did? then ReceiptId(RecordedOperation(o).value.occurrence) in x.disk.receipts else x.WasRefused())
      && (forall r :: r in x.disk.receipts && r !in d.receipts ==> r == ReceiptId(RecordedOperation(o).value.occurrence))
  {
    hide Standing, Met, RecordedOperation, TrustedResult, ProvenanceDeed, ProvenanceClean, ObservationOf, Stored, Tracks, ReceiptInputs, Proves, Grows, Verified, RecordRef;
    var operation := RecordedOperation(o).value;
    var op := operation.occurrence;
    var inputs := ReceiptInputs(s, d, op, id);
    ReceiptProved(s, d, u, captures, op, id);
    ProvenanceDeedKeeps(s, d, u, captures, ReceiptId(op), inputs);
    var proof := ProvenanceDeed(s, d, u, ReceiptId(op), inputs);
    SameRecordsTrack(s, d, proof.disk);
    if proof.Did? {
      var n := proof.disk.sequence + 1;
      var numbered := proof.disk.(sequence := n);
      NumberedStands(s, proof.disk, proof.uuid, captures);
      GrowsTransitive(d, proof.disk, numbered);
      assert ReceiptInputs(s, proof.disk, op, id) == inputs by { SameInputs(s, d, proof.disk, op, id); }
      var r := MakeReceipt(s, op, operation, d.pending[op], d.events[id], RecordRef(s, Events, id, EventDoc(d.events[id])),
        TrustedResult(o).value, n, Some(proof.value));
      ReceiptStands(s, d, u, proof.disk, numbered, proof.uuid, captures, operation, id, o, proof.value);
      ReceiptFileKeeps(s, d, numbered, proof.uuid, captures, r);
    }
  }

  lemma SameInputs(s: Setting, a: Disk, b: Disk, op: string, id: Id)
    requires op in a.pending && id in a.events && b.pending == a.pending && b.events == a.events
    ensures ReceiptInputs(s, b, op, id) == ReceiptInputs(s, a, op, id)
  {
  }

  /** With the provenance stored and the number taken, the receipt's record may be written. */
  lemma ReceiptStands(s: Setting, d1: Disk, u1: nat, d2: Disk, d: Disk, u: nat, captures: map<string, Found>, operation: Operation, id: Id, o: Observation, proof: Ref)
    requires var op := operation.occurrence;
      && Standing(s, d1, u1, captures) && Standing(s, d, u, captures) && Grows(d1, d2) && Grows(d2, d)
      && d2 == d1.(blobs := d2.blobs, provenance := d2.provenance) && d == d2.(sequence := d2.sequence + 1)
      && op in d1.pending && Ready(s, d1, id, o) && o.commandClass == ExactVerifier && IsResultEvent(o.event)
      && ReceiptId(op) !in d1.receipts && RecordedOperation(o) == Some(operation) && TrustedResult(o).Some?
      && ProvenanceClean(s, d2, Some(proof), ReceiptId(op), ReceiptInputs(s, d2, op, id))
    ensures var op := operation.occurrence;
      var r := MakeReceipt(s, op, operation, d.pending[op], d.events[id], RecordRef(s, Events, id, EventDoc(d.events[id])),
        TrustedResult(o).value, d.sequence, Some(proof));
      var b := d.(receipts := d.receipts[r.id := r]);
      Standing(s, b, u, captures) && Grows(d, b) && r.id == ReceiptId(op)
  {
    hide Sound, ProvenanceClean, TrustedResult, RecordedOperation, ObservationOf, Stored, ReceiptInputs;
    ReceiptWritable(s, d1, d2, d, captures, operation, id, o, Some(proof));
  }

  lemma ReceiptFileKeeps(s: Setting, start: Disk, d: Disk, u: nat, captures: map<string, Found>, r: Receipt)
    requires Grows(start, d) && OnlyReceipts(start, d) && d.receipts == start.receipts && r.id !in d.receipts
    requires var b := d.(receipts := d.receipts[r.id := r]); Standing(s, b, u, captures) && Grows(d, b)
    ensures var x := ReceiptFileDeed(s, d, u, r);
      && Kept(s, start, captures, x) && OnlyReceipts(start, x.disk) && Tracks(s, start, x.disk, x.WasTorn())
      && x.disk.receipts == start.receipts[r.id := r] && (x.Undone? ==> x.WasTorn())
  {
    hide Standing, Met, Tracks, Stored;
    var filed := d.(receipts := d.receipts[r.id := r]);
    BlobDeedKeeps(s, filed, u, captures, ReceiptDoc(r), RecordSource, RecordAt(Receipts, r.id));
    var x := ReceiptFileDeed(s, d, u, r);
    GrowsTransitive(start, d, filed);
    KeptSince(s, start, filed, captures, x);
    RefusedNotStored(s, x);
    ReceiptTracks(s, start, x.disk, r);
  }

  /** A result correlates exactly when its marker is there: on a sound disk the marker then fits. */
  lemma FitsExactly(s: Setting, d: Disk, captures: map<string, Found>, o: Observation, id: Id)
    requires Sound(s, d, captures) && RecordedOperation(o).Some? && id in d.events && ObservationOf(d, d.events[id]) == Some(o)
    ensures Fits(s, d, o, RecordedOperation(o).value.occurrence) <==> RecordedOperation(o).value.occurrence in d.pending
  {
    hide ProvenanceClean, CheckpointSound, ReceiptSound, FoundManifestHash, TrustedResult, RecordedOperation;
    SoundEvent(s, d, captures, id);
    if RecordedOperation(o).value.occurrence in d.pending {
      SoundPending(s, d, captures, RecordedOperation(o).value.occurrence);
    }
  }

  lemma ResultDeedKeeps(s: Setting, d: Disk, u: nat, captures: map<string, Found>, o: Observation, id: Id)
    requires Standing(s, d, u, captures) && Ready(s, d, id, o) && o.commandClass == ExactVerifier && IsResultEvent(o.event)
    requires TrustedResult(o).Some?
    ensures var x := ResultDeed(s, d, u, o, id);
      && Kept(s, d, captures, x) && OnlyReceipts(d, x.disk) && Tracks(s, d, x.disk, x.WasTorn())
      && (x.Did? ==> Correlates(d, o, true) && ReceiptId(RecordedOperation(o).value.occurrence) in x.disk.receipts)
      && (x.Undone? && !x.WasRefused() ==> !Correlates(d, o, true))
      && (forall r :: r in x.disk.receipts && r !in d.receipts ==>
            Correlates(d, o, true) && r == ReceiptId(RecordedOperation(o).value.occurrence))
  {
    hide Sound, Met, RecordedOperation, TrustedResult, Fits, ReceiptDeed, ObservationOf, Stored, Tracks, Grows;
    SameGrows(d);
    SameRecordsTrack(s, d, d);
    if RecordedOperation(o).Some? && o.cwdScope == "." {
      FitsExactly(s, d, captures, o, id);
      if Fits(s, d, o, RecordedOperation(o).value.occurrence) && ReceiptId(RecordedOperation(o).value.occurrence) !in d.receipts {
        ReceiptDeedKeeps(s, d, u, captures, o, id);
      }
    }
  }

  // ---- The whole hook ----

  /** What a hook that did all of its work has left: its one event, in the bound external session, and the receipt of an
      eligible result. */
  ghost predicate Recorded(s: Setting, hashText: string -> Hash, before: Disk, after: Disk, i: HookInput) {
    && i.Hook? && Sanitize(i.payload, s.meta.verifier, hashText).Some?
    && var o := Sanitize(i.payload, s.meta.verifier, hashText).value;
    && after.external == Some(o.externalHash)
    && (exists id :: id !in before.events && id in after.events && after.events == before.events[id := after.events[id]] &&
                     ObservationOf(after, after.events[id]) == Some(o))
    && (IsEligibleResult(s, i, o) ==>
          RecordedOperation(o).Some? && ReceiptId(RecordedOperation(o).value.occurrence) in after.receipts)
  }

  /** What a pre hook of the verifier that lets the call through has left: a marker for its operation, naming its own event
      and the checkpoint of the repository as it found it. */
  ghost predicate Guarded(s: Setting, before: Disk, after: Disk, captured: map<string, Found>, i: HookInput) {
    && i.Hook? && i.found.Some? && i.payload.toolUseId.Some?
    && var op := i.payload.toolUseId.value;
    && op !in before.pending && op in after.pending && after.pending[op].preEventId !in before.events
    && after.pending[op].preEventId in after.events && op in captured && captured[op] == i.found.value
    && after.pending[op].checkpointId in after.checkpoints
    && FoundManifestHash(s.digest, i.found.value) == Some(after.checkpoints[after.pending[op].checkpointId].manifestHash)
  }

  /** The captured states after a hook. */
  function CapturesAfter(s: Setting, hashText: string -> Hash, captures: map<string, Found>, i: HookInput, done: bool): map<string, Found> {
    if i.Hook? && IsExactPre(s, i) && Sanitize(i.payload, s.meta.verifier, hashText).Some?
    then WithCapture(captures, Sanitize(i.payload, s.meta.verifier, hashText).value, i.found, done) else captures
  }

  /** What the handler's work amounts to, whichever branch it takes after the event. */
  ghost predicate Branched(s: Setting, hashText: string -> Hash, d: Disk, captures: map<string, Found>, i: HookInput, o: Observation,
    id: Id, x: Deed<Id>)
  {
    && Kept(s, d, CapturesAfter(s, hashText, captures, i, x.Did?), x)
    && MapGrows(captures, CapturesAfter(s, hashText, captures, i, x.Did?))
    && x.disk.events == d.events && x.disk.anomalies == d.anomalies && x.disk.external == d.external
    && Tracks(s, d, x.disk, x.WasTorn())
    && (x.Did? ==>
          && (IsExactPre(s, i) ==> Correlates(d, o, false) && i.found.Some? && FoundManifestHash(s.digest, i.found.value).Some?)
          && (IsEligibleResult(s, i, o) ==> Correlates(d, o, true) && ReceiptId(RecordedOperation(o).value.occurrence) in x.disk.receipts))
    && (x.Did? && IsExactPre(s, i) ==>
          RecordedOperation(o).value.occurrence in x.disk.pending && x.disk.pending[RecordedOperation(o).value.occurrence].preEventId == id)
    && (x.Undone? && !x.WasRefused() ==>
          || (IsExactPre(s, i) && (!Correlates(d, o, false) || i.found.None? || FoundManifestHash(s.digest, i.found.value).None?))
          || (IsEligibleResult(s, i, o) && !Correlates(d, o, true)))
  }

  /** A translated payload keeps the event and says whether it is the configured verifier's. */
  lemma TranslatedKind(s: Setting, hashText: string -> Hash, i: HookInput)
    requires i.Hook? && Sanitize(i.payload, s.meta.verifier, hashText).Some?
    ensures var o := Sanitize(i.payload, s.meta.verifier, hashText).value;
      && i.payload.event == Some(o.event)
      && (IsExactVerifier(i.payload, s.meta.verifier) && IsToolEvent(o.event) ==> o.commandClass == ExactVerifier)
      && (RecordedOperation(o).Some? ==> i.payload.toolUseId == Some(RecordedOperation(o).value.occurrence))
  {
    hide TerminationOf;
  }

  lemma PreBranchKeeps(s: Setting, hashText: string -> Hash, d: Disk, u: nat, captures: map<string, Found>, i: HookInput, o: Observation, id: Id)
    requires i.Hook? && Sanitize(i.payload, s.meta.verifier, hashText) == Some(o) && IsExactPre(s, i)
    requires Standing(s, d, u, captures) && Ready(s, d, id, o)
    ensures Branched(s, hashText, d, captures, i, o, id, PreDeed(s, d, u, o, id, i.found))
  {
    hide Standing, Met, Tracks, PreDeed, FoundManifestHash, TrustedResult, IsExactVerifier, Sanitize, Ready, RecordedOperation, Grows, MapGrows;
    TranslatedKind(s, hashText, i);
    PreDeedKeeps(s, d, u, captures, o, id, i.found);
  }

  lemma ResultBranchKeeps(s: Setting, hashText: string -> Hash, d: Disk, u: nat, captures: map<string, Found>, i: HookInput, o: Observation, id: Id)
    requires i.Hook? && Sanitize(i.payload, s.meta.verifier, hashText) == Some(o) && IsEligibleResult(s, i, o)
    requires Standing(s, d, u, captures) && id in d.events && Ready(s, d, id, o)
    ensures Branched(s, hashText, d, captures, i, o, id, ResultDeed(s, d, u, o, id))
  {
    hide Standing, Met, Tracks, ResultDeed, FoundManifestHash, TrustedResult, IsExactVerifier, Sanitize, Ready, RecordedOperation, Grows, MapGrows;
    TranslatedKind(s, hashText, i);
    SameMapGrows(captures);
    ResultDeedKeeps(s, d, u, captures, o, id);
  }

  lemma PlainBranchKeeps(s: Setting, hashText: string -> Hash, d: Disk, u: nat, captures: map<string, Found>, i: HookInput, o: Observation, id: Id)
    requires i.Hook? && Sanitize(i.payload, s.meta.verifier, hashText) == Some(o) && !IsExactPre(s, i) && !IsEligibleResult(s, i, o)
    requires Standing(s, d, u, captures)
    ensures Branched(s, hashText, d, captures, i, o, id, Did(d, u, id))
  {
    hide Standing, Tracks, FoundManifestHash, TrustedResult, IsExactVerifier, Sanitize, IsExactPre, IsEligibleResult, Grows, MapGrows;
    SameMapGrows(captures);
    SameGrows(d);
    SameRecordsTrack(s, d, d);
  }

  lemma BranchDeedKeeps(s: Setting, hashText: string -> Hash, d: Disk, u: nat, captures: map<string, Found>, i: HookInput, o: Observation, id: Id)
    requires i.Hook? && Sanitize(i.payload, s.meta.verifier, hashText) == Some(o)
    requires Standing(s, d, u, captures) && id in d.events && Ready(s, d, id, o)
    ensures Branched(s, hashText, d, captures, i, o, id, BranchDeed(s, d, u, i, o, id))
  {
    hide Standing, Branched, PreDeed, ResultDeed, TrustedResult, IsExactVerifier, Sanitize, Ready, RecordedOperation;
    TranslatedKind(s, hashText, i);
    if IsExactPre(s, i) {
      PreBranchKeeps(s, hashText, d, u, captures, i, o, id);
    } else if IsEligibleResult(s, i, o) {
      ResultBranchKeeps(s, hashText, d, u, captures, i, o, id);
    } else {
      PlainBranchKeeps(s, hashText, d, u, captures, i, o, id);
    }
  }

  lemma SameMapGrows(m: map<string, Found>)
    ensures MapGrows(m, m)
  {
  }

  lemma BoundStands(s: Setting, d: Disk, u: nat, captures: map<string, Found>, h: Hash)
    requires Standing(s, d, u, captures) && s.meta.validatedProfile && (d.external == None || d.external == Some(h))
    ensures var b := d.(external := Some(h)); Standing(s, b, u, captures) && Grows(d, b)
  {
    hide Sound;
    if d.external == None { ExternalBound(s, d, captures, h); } else { SameGrows(d); assert d.(external := Some(h)) == d; }
  }

  /** The hook keeps the invariant and loses nothing; and unless a write is refused it does all of its work exactly when
      the input and the stored session allow it. */
  lemma HookDeedKeeps(s: Setting, hashText: string -> Hash, d: Disk, u: nat, captures: map<string, Found>, i: HookInput)
    requires Standing(s, d, u, captures)
    ensures var x := HookDeed(s, hashText, d, u, i);
      && Kept(s, d, CapturesAfter(s, hashText, captures, i, x.Did?), x)
      && MapGrows(captures, CapturesAfter(s, hashText, captures, i, x.Did?))
      && x.disk.anomalies == d.anomalies && Tracks(s, d, x.disk, x.WasTorn())
      && (x.Did? <==> Succeeds(s, hashText, d, i) && !x.WasRefused())
      && (!Observable(s, hashText, d, i) ==> x.disk == d)
      && (x.Did? ==> Recorded(s, hashText, d, x.disk, i))
      && (x.Did? && IsExactPre(s, i) ==> Guarded(s, d, x.disk, CapturesAfter(s, hashText, captures, i, true), i))
  {
    hide Standing, Met, Tracks, EventDeed, BranchDeed, Sanitize, IsExactVerifier, FoundManifestHash, TrustedResult, RecordedOperation, Grows, MapGrows,
      EventPut, Ready, Branched, Recorded, Guarded, Succeeds, CapturesAfter;
    SameMapGrows(captures);
    SameGrows(d);
    SameRecordsTrack(s, d, d);
    if Observable(s, hashText, d, i) {
      var o := Sanitize(i.payload, s.meta.verifier, hashText).value;
      var bound := d.(external := Some(o.externalHash));
      BoundStands(s, d, u, captures, o.externalHash);
      EventDeedKeeps(s, bound, u, captures, o);
      SameRecordsTrack(s, d, bound);
      var e := EventDeed(s, bound, u, o);
      KeptSince(s, d, bound, captures, e);
      TracksTransitive(s, d, bound, e.disk, e.WasTorn());
      if e.Did? {
        EventReady(s, bound, e.disk, e.value, o);
        BranchDeedKeeps(s, hashText, e.disk, e.uuid, captures, i, o, e.value);
        BranchEnds(s, hashText, d, bound, e.disk, captures, i, o, e.value, BranchDeed(s, e.disk, e.uuid, i, o, e.value));
      } else {
        NotDone(s, hashText, captures, i);
      }
    } else {
      NotDone(s, hashText, captures, i);
      NotObserved(s, hashText, d, i);
    }
  }

  lemma NotDone(s: Setting, hashText: string -> Hash, captures: map<string, Found>, i: HookInput)
    ensures CapturesAfter(s, hashText, captures, i, false) == captures
  {
  }

  lemma NotObserved(s: Setting, hashText: string -> Hash, d: Disk, i: HookInput)
    ensures Succeeds(s, hashText, d, i) ==> Observable(s, hashText, d, i)
  {
  }

  lemma EventReady(s: Setting, a: Disk, b: Disk, id: Id, o: Observation)
    requires EventPut(s, a, b, id, o)
    ensures id in b.events && Ready(s, b, id, o)
  {
    hide ObservationOf, Stored;
  }

  /** The branch taken after the event settles what the whole hook has done. */
  lemma BranchEnds(s: Setting, hashText: string -> Hash, d: Disk, bound: Disk, b: Disk, captures: map<string, Found>, i: HookInput, o: Observation, id: Id, x: Deed<Id>)
    requires Observable(s, hashText, d, i) && Sanitize(i.payload, s.meta.verifier, hashText) == Some(o)
    requires bound == d.(external := Some(o.externalHash)) && Grows(d, b) && OnlyEvents(bound, b) && EventPut(s, bound, b, id, o)
    requires Branched(s, hashText, b, captures, i, o, id, x) && Tracks(s, d, b, false)
    ensures Kept(s, d, CapturesAfter(s, hashText, captures, i, x.Did?), x)
    ensures MapGrows(captures, CapturesAfter(s, hashText, captures, i, x.Did?))
    ensures x.disk.anomalies == d.anomalies && Tracks(s, d, x.disk, x.WasTorn())
    ensures x.Did? <==> Succeeds(s, hashText, d, i) && !x.WasRefused()
    ensures x.Did? ==> Recorded(s, hashText, d, x.disk, i)
    ensures x.Did? && IsExactPre(s, i) ==> Guarded(s, d, x.disk, CapturesAfter(s, hashText, captures, i, true), i)
  {
    hide Standing, Met, Tracks, Sanitize, IsExactVerifier, FoundManifestHash, TrustedResult, RecordedOperation, Grows, MapGrows, EventPut, Ready, Recorded, Guarded,
      CapturesAfter, ObservationOf;
    KeptSince(s, d, b, CapturesAfter(s, hashText, captures, i, x.Did?), x);
    TracksTransitive(s, d, b, x.disk, x.WasTorn());
    if x.Did? {
      DoneRecorded(s, hashText, d, bound, b, captures, i, o, id, x);
      if IsExactPre(s, i) { DoneGuarded(s, hashText, d, bound, b, captures, i, o, id, x); }
    }
  }

  lemma DoneRecorded(s: Setting, hashText: string -> Hash, d: Disk, bound: Disk, b: Disk, captures: map<string, Found>, i: HookInput, o: Observation, id: Id, x: Deed<Id>)
    requires i.Hook? && Sanitize(i.payload, s.meta.verifier, hashText) == Some(o) && x.Did?
    requires bound == d.(external := Some(o.externalHash)) && OnlyEvents(bound, b) && EventPut(s, bound, b, id, o)
    requires Branched(s, hashText, b, captures, i, o, id, x)
    ensures Recorded(s, hashText, d, x.disk, i)
  {
    hide Standing, Met, Tracks, Sanitize, IsExactPre, IsEligibleResult, FoundManifestHash, RecordedOperation, CapturesAfter, IsRecord, Stored;
    assert ObservationOf(x.disk, x.disk.events[id]) == Some(o);
  }

  lemma DoneGuarded(s: Setting, hashText: string -> Hash, d: Disk, bound: Disk, b: Disk, captures: map<string, Found>, i: HookInput, o: Observation, id: Id, x: Deed<Id>)
    requires i.Hook? && Sanitize(i.payload, s.meta.verifier, hashText) == Some(o) && x.Did? && IsExactPre(s, i)
    requires bound == d.(external := Some(o.externalHash)) && OnlyEvents(bound, b) && EventPut(s, bound, b, id, o)
    requires Branched(s, hashText, b, captures, i, o, id, x)
    ensures Guarded(s, d, x.disk, CapturesAfter(s, hashText, captures, i, true), i)
  {
    hide Sound, Met, Tracks, Sanitize, IsExactVerifier, FoundManifestHash, RecordedOperation, ObservationOf, Stored, Grows, MapGrows, IsRecord;
    TranslatedKind(s, hashText, i);
    SoundPending(s, x.disk, CapturesAfter(s, hashText, captures, i, true), RecordedOperation(o).value.occurrence);
  }
}
